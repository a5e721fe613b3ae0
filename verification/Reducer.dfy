// Reducing one model output to a durable closure: validate provenance, decide
// every candidate, build the Task graphs of the accepted ones.

module Reducer {
  import opened Records
  import opened Understanding
  import opened Proposals
  import opened OrderId
  import opened SourceSpan

  datatype Allocation = Allocation(candidateRef: Id, deltaId: Id, taskId: Id, unitId: Id, bindingId: Id)
  {
    predicate Valid() { Distinct([deltaId, taskId, unitId, bindingId, candidateRef]) }
  }

  datatype TaskGraph = TaskGraph(delta: AcceptedDelta, binding: InputBinding, task: Task, unit: RequestUnit)
  {
    // One clean initial Task effect with one timestamp.
    predicate Valid() {
      && delta.Valid() && task.Valid() && unit.Valid()
      && Distinct([delta.deltaId, binding.bindingId, task.taskId, unit.unitId])
      && delta.taskId == task.taskId && delta.base.None? && delta.result == 1
      && delta.bindingRefs == [binding.bindingId]
      && binding.sourceRefs == [delta.messageRef] && binding.supersedes.None?
      && task.status.TaskActive? && task.version == 1 && task.lastOutcomeRef.None?
      && unit.taskId == task.taskId && unit.goalText == delta.goalText && unit.goalSourceRefs == [delta.messageRef]
      && unit.bindingRefs == [binding.bindingId] && unit.status.TaskActive? && unit.version == 1
      && unit.observationRefs == [] && unit.resultRefs == []
      && delta.acceptedAt == binding.createdAt == binding.updatedAt == task.createdAt == task.updatedAt
         == unit.createdAt == unit.updatedAt
    }

    // The binding carries the normal form of the candidate's one input.
    predicate Projects(record: UnderstandingRecord) {
      exists c :: c in record.candidates && c.candidateId == delta.candidateRef
                  && delta.messageRef == record.messageRef && delta.goalText == c.goalPatch && |c.inputs| == 1
                  && Normalize(c.inputs[0].value) == Some(binding.orderId)
                  && binding.sourceRefs == [c.inputs[0].sourceRef]
    }

    function Ids(): seq<Id> { [delta.deltaId, task.taskId, unit.unitId, binding.bindingId] }
  }

  function ChildRefs(children: seq<AcceptedDelta>): set<Id> { set c | c in children :: c.candidateRef }

  function ChildIds(children: seq<AcceptedDelta>): set<Id> { set c | c in children :: c.deltaId }

  function AcceptedRefs(decisions: seq<CandidateDecision>): set<Id> {
    set d | d in decisions && d.accepted :: d.candidateRef
  }

  datatype Closure = Closure(record: UnderstandingRecord, children: seq<AcceptedDelta>)
  {
    // The children are exactly the accepted candidates, each preserved.
    predicate Valid() {
      && record.Valid()
      && (forall i, j :: 0 <= i < j < |children| ==>
            children[i].candidateRef != children[j].candidateRef && children[i].deltaId != children[j].deltaId)
      && ChildRefs(children) == AcceptedRefs(record.decisions)
      && ChildIds(children) == (set d | d in record.acceptedRefs)
      && (forall c :: c in children ==> Preserves(c))
    }

    predicate Preserves(c: AcceptedDelta) {
      && c.Valid() && c.messageRef == record.messageRef && c.acceptedAt == record.createdAt
      && Distinct(c.bindingRefs)
      && exists x :: x in record.candidates && x.candidateId == c.candidateRef && x.goalPatch == c.goalText
    }
  }

  datatype Decision =
    | NoTask(closure: Closure)
    | Routable(closure: Closure, graph: TaskGraph, moveRef: Id, move: NextMove)
    | Unrouted(closure: Closure, graphs: seq<TaskGraph>)
  {
    predicate Valid() {
      && closure.Valid()
      && match this
         case NoTask(c) => c.children == [] && NothingAccepted() && Moveless()
         case Routable(c, g, ref, m) =>
           && |c.record.candidates| == 1 && |c.record.decisions| == 1 && c.record.decisions[0].accepted
           && g.Valid() && c.children == [g.delta] && c.record.acceptedRefs == [g.delta.deltaId]
           && c.record.nextMoveRef == Some(ref) && c.record.proposedBase == m.base
           && c.record.validatedVersion == Some(1)
           && g.delta.candidateRef == c.record.candidates[0].candidateId
           && g.Projects(c.record) && Distinct([c.record.recordId] + g.Ids() + [ref])
         case Unrouted(c, gs) =>
           && 1 <= AcceptedCount(c.record.decisions) == |gs| == |c.children| == |c.record.acceptedRefs|
           && (forall i :: 0 <= i < |gs| ==>
                 && gs[i].Valid() && gs[i].Projects(c.record)
                 && c.children[i] == gs[i].delta && c.record.acceptedRefs[i] == gs[i].delta.deltaId)
           && Moveless() && !(|c.record.candidates| == 1 && |gs| == 1)
           && Distinct([c.record.recordId] + AllIds(gs))
    }

    predicate NothingAccepted() { forall d :: d in closure.record.decisions ==> !d.accepted }

    predicate Moveless() {
      closure.record.nextMoveRef.None? && closure.record.proposedBase.None? && closure.record.validatedVersion.None?
    }
  }

  function AllIds(gs: seq<TaskGraph>): seq<Id> {
    if gs == [] then [] else AllIds(gs[..|gs| - 1]) + gs[|gs| - 1].Ids()
  }

  datatype Refusal = SourceProvenanceInvalid | ClosureCommitFailed

  datatype Reduction = Decided(decision: Decision) | Refused(reason: Refusal)

  // ----- Provenance -----

  type Messages = map<Id, string>

  predicate Known(messages: Messages, m: Id) { m in messages && messages[m] != "" }

  // Sources are the current message or recent ones, and say so.
  predicate SourcesVisible(input: ModelInput, output: ModelOutput) {
    && (forall m :: m in output.context.sourceRefs ==> m == input.messageRef || m in input.recentRefs)
    && forall r :: r in output.context.references ==>
         if r.source.CurrentMessage? then r.sourceRef == input.messageRef
         else r.sourceRef != input.messageRef && r.sourceRef in input.recentRefs
  }

  predicate QuoteFound(messages: Messages, m: Id, quote: string, value: string) {
    Known(messages, m) && Locatable(messages[m], quote, value)
  }

  predicate QuotesFound(output: ModelOutput, messages: Messages) {
    && (forall r :: r in output.context.references ==> QuoteFound(messages, r.sourceRef, r.quote, r.value))
    && (forall c, x :: c in output.candidates && x in c.inputs ==>
          QuoteFound(messages, x.sourceRef, x.quote, x.value))
  }

  predicate Provenance(input: ModelInput, output: ModelOutput, messages: Messages) {
    && input.messageRef == output.messageRef
    && SourcesVisible(input, output)
    && Known(messages, input.messageRef) && messages[input.messageRef] == input.query
    && (forall m :: m in output.context.sourceRefs ==> Known(messages, m))
    && QuotesFound(output, messages)
  }

  // ----- Deciding candidates -----

  predicate Uncertain(output: ModelOutput, reason: UncertaintyReason) {
    exists u :: u in output.context.uncertainties && u.reason == reason
  }

  function Rejection(output: ModelOutput, c: Candidate): Option<RejectionReason> {
    if Uncertain(output, MissingReference) then Some(ReferenceUnresolved)
    else if Uncertain(output, MultiplePlausibleReferences) then Some(ReferenceAmbiguous)
    else if |c.inputs| != 1 || c.inputs[0].sourceRef != output.messageRef then Some(RequiredInputMissing)
    else if Normalize(c.inputs[0].value).None? then Some(InputValueInvalid)
    else None
  }

  lemma NamesNormal(value: string)
    ensures (exists orderId :: Names(value, orderId)) <==> Normalize(value).Some?
  {
    hide Names, Normalize;
    forall orderId ensures Normalize(value) == Some(orderId) <==> Names(value, orderId) {
      NormalizesExactly(value, orderId);
    }
    if Normalize(value).Some? { assert Names(value, Normalize(value).value); }
  }

  // What acceptance means: nothing is uncertain and the value names an order id.
  lemma AcceptedExactly(output: ModelOutput, c: Candidate)
    requires output.Valid() && c in output.candidates
    ensures Rejection(output, c).None?
            <==> output.context.uncertainties == [] && exists orderId :: Names(c.inputs[0].value, orderId)
  {
    hide Names, Normalize;
    var us := output.context.uncertainties;
    NamesNormal(c.inputs[0].value);
    if us != [] {
      assert us[0] in us;
      assert Uncertain(output, us[0].reason);
    }
  }

  // Why a candidate is refused: the uncertainties come first, a missing reference before
  // an ambiguous one, then a value that names no order id.
  lemma RejectedExactly(output: ModelOutput, c: Candidate)
    requires output.Valid() && c in output.candidates
    ensures var us := output.context.uncertainties;
            Rejection(output, c) ==
              if exists u :: u in us && u.reason.MissingReference? then Some(ReferenceUnresolved)
              else if exists u :: u in us && u.reason.MultiplePlausibleReferences? then Some(ReferenceAmbiguous)
              else if exists orderId :: Names(c.inputs[0].value, orderId) then None else Some(InputValueInvalid)
  {
    hide Names, Normalize;
    AcceptedExactly(output, c);
    assert output.CandidateOk(c);
    NamesNormal(c.inputs[0].value);
    assert Uncertain(output, MissingReference) <==> exists u :: u in output.context.uncertainties && u.reason.MissingReference?;
    assert Uncertain(output, MultiplePlausibleReferences)
           <==> exists u :: u in output.context.uncertainties && u.reason.MultiplePlausibleReferences?;
  }

  function DecisionFor(output: ModelOutput, c: Candidate): (d: CandidateDecision)
    ensures d.Valid()
  {
    CandidateDecision(c.candidateId, Rejection(output, c).None?, Rejection(output, c))
  }

  function Decisions(output: ModelOutput, cs: seq<Candidate>): (ds: seq<CandidateDecision>)
    ensures |ds| == |cs| && forall i :: 0 <= i < |cs| ==> ds[i] == DecisionFor(output, cs[i])
  {
    seq(|cs|, i requires 0 <= i < |cs| => DecisionFor(output, cs[i]))
  }

  type Allocations = map<Id, Allocation>

  function GraphFor(output: ModelOutput, c: Candidate, a: Allocation, owner: string, now: Time): TaskGraph
    requires Rejection(output, c).None?
  {
    TaskGraph(
      AcceptedDelta(a.deltaId, c.candidateId, output.messageRef, c.goalPatch, [a.bindingId], now, a.taskId, None, 1),
      InputBinding(a.bindingId, Normalize(c.inputs[0].value).value, [output.messageRef], now, now, None),
      Task(a.taskId, owner, TaskActive, 1, now, now, None),
      RequestUnit(a.unitId, a.taskId, c.goalPatch, [output.messageRef], [a.bindingId], [], [], TaskActive, 1, now, now))
  }

  function Graphs(output: ModelOutput, cs: seq<Candidate>, ids: Allocations, owner: string, now: Time): seq<TaskGraph>
    requires forall c :: c in cs ==> c.candidateId in ids
  {
    if cs == [] then []
    else
      var last := cs[|cs| - 1];
      assert forall c :: c in cs[..|cs| - 1] ==> c in cs;
      var front := Graphs(output, cs[..|cs| - 1], ids, owner, now);
      if Rejection(output, last).Some? then front
      else front + [GraphFor(output, last, ids[last.candidateId], owner, now)]
  }

  // ----- Projections -----

  function ProjectedReference(r: Reference, messages: Messages): DurableReference
    requires QuoteFound(messages, r.sourceRef, r.quote, r.value)
  {
    var span := SpanOf(messages[r.sourceRef], r.quote);
    DurableReference(r.value, r.source, r.sourceRef, span.start, span.end)
  }

  function ProjectedInput(x: ProposedInput, messages: Messages): DurableInput
    requires QuoteFound(messages, x.sourceRef, x.quote, x.value)
  {
    var span := SpanOf(messages[x.sourceRef], x.quote);
    DurableInput(x.value, x.sourceRef, span.start, span.end)
  }

  function ProjectedCandidate(c: Candidate, messages: Messages): (d: DurableCandidate)
    requires forall x :: x in c.inputs ==> QuoteFound(messages, x.sourceRef, x.quote, x.value)
    ensures d.candidateId == c.candidateId && d.goalPatch == c.goalPatch && |d.inputs| == |c.inputs|
    ensures forall i :: 0 <= i < |c.inputs| ==>
              && d.inputs[i] == ProjectedInput(c.inputs[i], messages)
              && d.inputs[i].value == c.inputs[i].value && d.inputs[i].sourceRef == c.inputs[i].sourceRef
              && d.inputs[i].spanStart < d.inputs[i].spanEnd
  {
    DurableCandidate(c.candidateId, c.goalPatch,
                     seq(|c.inputs|, i requires 0 <= i < |c.inputs| =>
                       assert c.inputs[i] in c.inputs; ProjectedInput(c.inputs[i], messages)))
  }

  function ProjectedContext(x: Contextualization, messages: Messages): (d: DurableContext)
    requires forall r :: r in x.references ==> QuoteFound(messages, r.sourceRef, r.quote, r.value)
    ensures x.Valid() ==> d.Valid()
    ensures d.sourceRefs == x.sourceRefs && d.uncertainties == x.uncertainties
    ensures |d.references| == |x.references|
    ensures forall i :: 0 <= i < |x.references| ==> d.references[i] == ProjectedReference(x.references[i], messages)
  {
    DurableContext(
      x.text,
      seq(|x.references|, i requires 0 <= i < |x.references| =>
        assert x.references[i] in x.references; ProjectedReference(x.references[i], messages)),
      x.uncertainties, x.sourceRefs)
  }

  function ProjectedCandidates(cs: seq<Candidate>, messages: Messages): (ds: seq<DurableCandidate>)
    requires forall c, x :: c in cs && x in c.inputs ==> QuoteFound(messages, x.sourceRef, x.quote, x.value)
    ensures |ds| == |cs| && forall i :: 0 <= i < |cs| ==> cs[i] in cs && ds[i] == ProjectedCandidate(cs[i], messages)
  {
    seq(|cs|, i requires 0 <= i < |cs| => assert cs[i] in cs; ProjectedCandidate(cs[i], messages))
  }

  // The span cuts the quote out of the message it was taken from.
  predicate CutsOut(messages: Messages, sourceRef: Id, start: nat, end: nat, quote: string) {
    sourceRef in messages && start < end <= |messages[sourceRef]| && messages[sourceRef][start..end] == quote
  }

  predicate ReferenceKept(d: DurableReference, r: Reference, messages: Messages) {
    && d.value == r.value && d.source == r.source && d.sourceRef == r.sourceRef
    && CutsOut(messages, r.sourceRef, d.spanStart, d.spanEnd, r.quote)
  }

  predicate InputKept(d: DurableInput, x: ProposedInput, messages: Messages) {
    d.value == x.value && d.sourceRef == x.sourceRef && CutsOut(messages, x.sourceRef, d.spanStart, d.spanEnd, x.quote)
  }

  lemma ReferenceStays(r: Reference, messages: Messages)
    requires QuoteFound(messages, r.sourceRef, r.quote, r.value)
    ensures ReferenceKept(ProjectedReference(r, messages), r, messages)
  {
  }

  lemma InputStays(x: ProposedInput, messages: Messages)
    requires QuoteFound(messages, x.sourceRef, x.quote, x.value)
    ensures InputKept(ProjectedInput(x, messages), x, messages)
  {
  }

  // The quote-free records say what the proposal said, each quote replaced by its place.
  lemma ProjectionKeeps(output: ModelOutput, messages: Messages)
    requires QuotesFound(output, messages)
    ensures var d, x := ProjectedContext(output.context, messages), output.context;
            && d.text == x.text && d.uncertainties == x.uncertainties && d.sourceRefs == x.sourceRefs
            && |d.references| == |x.references|
            && forall i :: 0 <= i < |x.references| ==> ReferenceKept(d.references[i], x.references[i], messages)
    ensures var ds, cs := ProjectedCandidates(output.candidates, messages), output.candidates;
            && |ds| == |cs|
            && forall i :: 0 <= i < |cs| ==>
                 && ds[i].candidateId == cs[i].candidateId && ds[i].goalPatch == cs[i].goalPatch
                 && |ds[i].inputs| == |cs[i].inputs|
                 && forall j :: 0 <= j < |cs[i].inputs| ==> InputKept(ds[i].inputs[j], cs[i].inputs[j], messages)
  {
    hide QuoteFound, ProjectedReference, ProjectedInput, ReferenceKept, InputKept;
    var d, rs := ProjectedContext(output.context, messages), output.context.references;
    var ds, cs := ProjectedCandidates(output.candidates, messages), output.candidates;
    forall i | 0 <= i < |rs| ensures ReferenceKept(d.references[i], rs[i], messages) {
      assert rs[i] in rs;
      ReferenceStays(rs[i], messages);
    }
    forall i, j | 0 <= i < |cs| && 0 <= j < |cs[i].inputs| ensures InputKept(ds[i].inputs[j], cs[i].inputs[j], messages) {
      assert cs[i] in cs && cs[i].inputs[j] in cs[i].inputs;
      InputStays(cs[i].inputs[j], messages);
    }
  }

  // ----- Identities -----

  function AllocationIds(a: Allocation): seq<Id> { [a.deltaId, a.taskId, a.unitId, a.bindingId] }

  function Generated(allocations: seq<Allocation>): seq<Id> {
    if allocations == [] then []
    else Generated(allocations[..|allocations| - 1]) + AllocationIds(allocations[|allocations| - 1])
  }

  // One allocation per emitted candidate and no identity twice.
  predicate AllocationsOk(allocations: seq<Allocation>, cs: seq<Candidate>, recordId: Id, moveRef: Id) {
    && (forall i, j :: 0 <= i < j < |allocations| ==> allocations[i].candidateRef != allocations[j].candidateRef)
    && (set a | a in allocations :: a.candidateRef) == (set c | c in cs :: c.candidateId)
    && Distinct([recordId, moveRef] + Generated(allocations))
  }

  // Ids of different allocations differ from each other and from the two fixed ones.
  predicate Apart(ids: Allocations, recordId: Id, moveRef: Id) {
    && recordId != moveRef
    && (forall k, x :: k in ids && x in AllocationIds(ids[k]) ==> x != recordId && x != moveRef)
    && (forall k :: k in ids ==> Distinct(AllocationIds(ids[k])))
    && (forall k, l, x :: k in ids && l in ids && k != l && x in AllocationIds(ids[k]) ==>
          x !in AllocationIds(ids[l]))
  }

  lemma DistinctSplit<T>(a: seq<T>, b: seq<T>)
    requires Distinct(a + b)
    ensures Distinct(a) && Distinct(b) && forall x :: x in a ==> x !in b
  {
    forall i, j | 0 <= i < j < |a| ensures a[i] != a[j] { assert (a + b)[i] == a[i] && (a + b)[j] == a[j]; }
    forall i, j | 0 <= i < j < |b| ensures b[i] != b[j] {
      assert (a + b)[|a| + i] == b[i] && (a + b)[|a| + j] == b[j];
    }
    forall x | x in a ensures x !in b {
      var i :| 0 <= i < |a| && a[i] == x;
      forall j | 0 <= j < |b| ensures b[j] != x { assert (a + b)[i] == x && (a + b)[|a| + j] == b[j]; }
    }
  }

  lemma {:induction false} GeneratedHolds(allocations: seq<Allocation>, i: nat)
    requires i < |allocations| && Distinct(Generated(allocations))
    ensures Distinct(AllocationIds(allocations[i]))
    ensures forall x :: x in AllocationIds(allocations[i]) ==> x in Generated(allocations)
  {
    var n := |allocations| - 1;
    DistinctSplit(Generated(allocations[..n]), AllocationIds(allocations[n]));
    if i < n { GeneratedHolds(allocations[..n], i); }
  }

  lemma {:induction false} GeneratedApart(allocations: seq<Allocation>, i: nat, j: nat, x: Id)
    requires i < j < |allocations| && Distinct(Generated(allocations)) && x in AllocationIds(allocations[i])
    ensures x !in AllocationIds(allocations[j])
  {
    var n := |allocations| - 1;
    DistinctSplit(Generated(allocations[..n]), AllocationIds(allocations[n]));
    if j < n {
      GeneratedApart(allocations[..n], i, j, x);
    } else {
      GeneratedHolds(allocations[..n], i);
    }
  }

  // The dictionary of allocations by candidate.
  ghost predicate ByCandidate(allocations: seq<Allocation>, ids: Allocations) {
    && ids.Keys == (set a | a in allocations :: a.candidateRef)
    && forall a :: a in allocations ==> ids[a.candidateRef] == a
  }

  lemma AllocationsApart(allocations: seq<Allocation>, cs: seq<Candidate>, recordId: Id, moveRef: Id, ids: Allocations)
    requires AllocationsOk(allocations, cs, recordId, moveRef) && ByCandidate(allocations, ids)
    ensures Apart(ids, recordId, moveRef) && forall c :: c in cs ==> c.candidateId in ids
  {
    DistinctSplit([recordId, moveRef], Generated(allocations));
    assert recordId != moveRef by { assert [recordId, moveRef][0] != [recordId, moveRef][1]; }
    forall k, x | k in ids && x in AllocationIds(ids[k]) ensures x != recordId && x != moveRef {
      var i :| 0 <= i < |allocations| && allocations[i].candidateRef == k;
      assert allocations[i] in allocations;
      GeneratedHolds(allocations, i);
      assert recordId in [recordId, moveRef] && moveRef in [recordId, moveRef];
    }
    forall k | k in ids ensures Distinct(AllocationIds(ids[k])) {
      var i :| 0 <= i < |allocations| && allocations[i].candidateRef == k;
      assert allocations[i] in allocations;
      GeneratedHolds(allocations, i);
    }
    forall k, l, x | k in ids && l in ids && k != l && x in AllocationIds(ids[k])
      ensures x !in AllocationIds(ids[l])
    {
      var i :| 0 <= i < |allocations| && allocations[i].candidateRef == k;
      var j :| 0 <= j < |allocations| && allocations[j].candidateRef == l;
      assert allocations[i] in allocations && allocations[j] in allocations;
      if i < j {
        GeneratedApart(allocations, i, j, x);
      } else if x in AllocationIds(ids[l]) {
        GeneratedApart(allocations, j, i, x);
      }
    }
  }

  // ----- What the graphs are -----

  // Graph i belongs to the accepted candidate at position at[i], in candidate order.
  ghost predicate SourcedAt(output: ModelOutput, cs: seq<Candidate>, ids: Allocations, owner: string, now: Time,
                            g: TaskGraph, k: nat)
  {
    && k < |cs| && Rejection(output, cs[k]).None? && cs[k].candidateId in ids
    && g == GraphFor(output, cs[k], ids[cs[k].candidateId], owner, now)
  }

  ghost predicate Sourced(output: ModelOutput, cs: seq<Candidate>, ids: Allocations, owner: string, now: Time,
                          gs: seq<TaskGraph>, at: seq<nat>)
  {
    && |at| == |gs|
    && (forall i :: 0 <= i < |at| ==> SourcedAt(output, cs, ids, owner, now, gs[i], at[i]))
    && (forall i, j :: 0 <= i < j < |at| ==> at[i] < at[j])
    && (forall k :: 0 <= k < |cs| && Rejection(output, cs[k]).None? ==> k in at)
  }

  lemma SourcedGrows(output: ModelOutput, cs: seq<Candidate>, c: Candidate, ids: Allocations, owner: string,
                     now: Time, gs: seq<TaskGraph>, at: seq<nat>)
    requires Sourced(output, cs, ids, owner, now, gs, at) && c.candidateId in ids
    ensures Rejection(output, c).Some? ==> Sourced(output, cs + [c], ids, owner, now, gs, at)
    ensures Rejection(output, c).None? ==>
              Sourced(output, cs + [c], ids, owner, now,
                      gs + [GraphFor(output, c, ids[c.candidateId], owner, now)], at + [|cs|])
  {
    hide GraphFor, Rejection;
    forall i | 0 <= i < |at| ensures SourcedAt(output, cs + [c], ids, owner, now, gs[i], at[i]) {
      assert SourcedAt(output, cs, ids, owner, now, gs[i], at[i]);
    }
    if Rejection(output, c).None? { assert (at + [|cs|])[|at|] == |cs|; }
  }

  lemma DecisionsGrow(output: ModelOutput, cs: seq<Candidate>, c: Candidate)
    ensures AcceptedCount(Decisions(output, cs + [c]))
            == AcceptedCount(Decisions(output, cs)) + if Rejection(output, c).None? then 1 else 0
  {
    assert Decisions(output, cs + [c])[..|cs|] == Decisions(output, cs);
  }

  lemma NothingSourced(output: ModelOutput, ids: Allocations, owner: string, now: Time)
    ensures Sourced(output, [], ids, owner, now, [], []) && AcceptedCount(Decisions(output, [])) == 0
  {
    assert Decisions(output, []) == [];
  }

  lemma {:induction false} GraphsSourced(output: ModelOutput, cs: seq<Candidate>, ids: Allocations,
                                         owner: string, now: Time) returns (at: seq<nat>)
    requires forall c :: c in cs ==> c.candidateId in ids
    ensures Sourced(output, cs, ids, owner, now, Graphs(output, cs, ids, owner, now), at)
    ensures |at| == |Graphs(output, cs, ids, owner, now)| == AcceptedCount(Decisions(output, cs))
  {
    hide GraphFor, Rejection, DecisionFor, Sourced, Decisions, AcceptedCount;
    if cs == [] {
      at := [];
      NothingSourced(output, ids, owner, now);
    } else {
      var front, last := cs[..|cs| - 1], cs[|cs| - 1];
      assert cs == front + [last] && last in cs;
      assert forall c :: c in front ==> c in cs;
      at := GraphsSourced(output, front, ids, owner, now);
      SourcedGrows(output, front, last, ids, owner, now, Graphs(output, front, ids, owner, now), at);
      DecisionsGrow(output, front, last);
      if Rejection(output, last).None? { at := at + [|front|]; }
    }
  }

  // ----- The closure -----

  function DeltaIds(gs: seq<TaskGraph>): (r: seq<Id>)
    ensures |r| == |gs| && forall i :: 0 <= i < |gs| ==> r[i] == gs[i].delta.deltaId
  {
    seq(|gs|, i requires 0 <= i < |gs| => gs[i].delta.deltaId)
  }

  function Deltas(gs: seq<TaskGraph>): (r: seq<AcceptedDelta>)
    ensures |r| == |gs| && forall i :: 0 <= i < |gs| ==> r[i] == gs[i].delta
  {
    seq(|gs|, i requires 0 <= i < |gs| => gs[i].delta)
  }

  predicate ExactlyOne(output: ModelOutput, gs: seq<TaskGraph>) { |output.candidates| == 1 && |gs| == 1 }

  function ClosureOf(input: ModelInput, output: ModelOutput, messages: Messages, gs: seq<TaskGraph>,
                     recordId: Id, moveRef: Id, now: Time): Closure
    requires QuotesFound(output, messages)
  {
    var one := ExactlyOne(output, gs);
    Closure(
      UnderstandingRecord(
        recordId, input.runId, output.messageRef, ProjectedContext(output.context, messages),
        ProjectedCandidates(output.candidates, messages), Decisions(output, output.candidates), DeltaIds(gs),
        if one then output.move.base else None, if one then Some(1) else None,
        if one then Some(moveRef) else None, now),
      Deltas(gs))
  }

  function DecisionOf(output: ModelOutput, closure: Closure, gs: seq<TaskGraph>, moveRef: Id): Decision {
    if gs == [] then NoTask(closure)
    else if ExactlyOne(output, gs) then Routable(closure, gs[0], moveRef, output.move)
    else Unrouted(closure, gs)
  }
}
