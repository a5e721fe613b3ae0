// The reducer itself: preflight, allocation check, one pass over the candidates,
// the durable closure and the decision.

module ReduceRequest {
  import opened Records
  import opened Understanding
  import opened Proposals
  import opened OrderId
  import opened SourceSpan
  import opened Reducer
  import opened ReducerTotal
  import opened Commands
  import DeltaChains

  predicate ReferencesFound(rs: seq<Reference>, messages: Messages) {
    forall x :: x in rs ==> QuoteFound(messages, x.sourceRef, x.quote, x.value)
  }

  method ProjectReferences(rs: seq<Reference>, messages: Messages) returns (r: Option<seq<DurableReference>>)
    ensures r.Some? <==> ReferencesFound(rs, messages)
    ensures r.Some? ==> |r.value| == |rs|
    ensures r.Some? ==> forall i :: 0 <= i < |rs| ==> r.value[i] == ProjectedReference(rs[i], messages)
  {
    hide Locatable, SpanOf, OccursOnce;
    var projected: seq<DurableReference> := [];
    for i := 0 to |rs|
      invariant |projected| == i
      invariant forall k :: 0 <= k < i ==>
                  QuoteFound(messages, rs[k].sourceRef, rs[k].quote, rs[k].value)
                  && projected[k] == ProjectedReference(rs[k], messages)
    {
      var x := rs[i];
      assert x in rs;
      if !Known(messages, x.sourceRef) { return None; }
      var span := ExactSourceSpan(messages[x.sourceRef], x.quote, x.value);
      if span.None? { return None; }
      projected := projected + [DurableReference(x.value, x.source, x.sourceRef, span.value.start, span.value.end)];
    }
    return Some(projected);
  }

  method ProjectInputs(c: Candidate, messages: Messages) returns (r: Option<DurableCandidate>)
    ensures r.Some? <==> forall x :: x in c.inputs ==> QuoteFound(messages, x.sourceRef, x.quote, x.value)
    ensures r.Some? ==> r.value == ProjectedCandidate(c, messages)
  {
    hide Locatable, SpanOf, OccursOnce;
    var inputs: seq<DurableInput> := [];
    for i := 0 to |c.inputs|
      invariant |inputs| == i
      invariant forall k :: 0 <= k < i ==>
                  QuoteFound(messages, c.inputs[k].sourceRef, c.inputs[k].quote, c.inputs[k].value)
                  && inputs[k] == ProjectedInput(c.inputs[k], messages)
    {
      var x := c.inputs[i];
      assert x in c.inputs;
      if !Known(messages, x.sourceRef) { return None; }
      var span := ExactSourceSpan(messages[x.sourceRef], x.quote, x.value);
      if span.None? { return None; }
      inputs := inputs + [DurableInput(x.value, x.sourceRef, span.value.start, span.value.end)];
    }
    assert inputs == ProjectedCandidate(c, messages).inputs;
    return Some(DurableCandidate(c.candidateId, c.goalPatch, inputs));
  }

  predicate InputsFound(c: Candidate, messages: Messages) {
    forall x :: x in c.inputs ==> QuoteFound(messages, x.sourceRef, x.quote, x.value)
  }

  predicate AllInputsFound(cs: seq<Candidate>, messages: Messages) {
    forall c :: c in cs ==> InputsFound(c, messages)
  }

  method ProjectCandidates(cs: seq<Candidate>, messages: Messages) returns (r: Option<seq<DurableCandidate>>)
    ensures r.Some? <==> AllInputsFound(cs, messages)
    ensures r.Some? ==> |r.value| == |cs|
    ensures r.Some? ==> forall i :: 0 <= i < |cs| ==>
              InputsFound(cs[i], messages) && r.value[i] == ProjectedCandidate(cs[i], messages)
  {
    hide Locatable, SpanOf, OccursOnce, QuoteFound;
    var projected: seq<DurableCandidate> := [];
    for i := 0 to |cs|
      invariant |projected| == i
      invariant forall k :: 0 <= k < i ==>
                  InputsFound(cs[k], messages) && projected[k] == ProjectedCandidate(cs[k], messages)
    {
      assert cs[i] in cs;
      var d := ProjectInputs(cs[i], messages);
      if d.None? { return None; }
      projected := projected + [d.value];
    }
    return Some(projected);
  }

  lemma ProvenanceExactly(input: ModelInput, output: ModelOutput, messages: Messages)
    ensures Provenance(input, output, messages) <==>
              && input.messageRef == output.messageRef && SourcesVisible(input, output)
              && Known(messages, input.messageRef) && messages[input.messageRef] == input.query
              && (forall m :: m in output.context.sourceRefs ==> Known(messages, m))
              && ReferencesFound(output.context.references, messages) && AllInputsFound(output.candidates, messages)
  {
    hide QuoteFound, SourcesVisible, Known;
    assert AllInputsFound(output.candidates, messages)
           <==> (forall c, x :: c in output.candidates && x in c.inputs ==> QuoteFound(messages, x.sourceRef, x.quote, x.value));
  }

  // What was projected piece by piece is the projection of the whole.
  lemma ProjectedWhole(output: ModelOutput, messages: Messages, rs: seq<DurableReference>, cs: seq<DurableCandidate>)
    requires ReferencesFound(output.context.references, messages) && AllInputsFound(output.candidates, messages)
    requires |rs| == |output.context.references| && |cs| == |output.candidates|
    requires forall i :: 0 <= i < |rs| ==> rs[i] == ProjectedReference(output.context.references[i], messages)
    requires forall i :: 0 <= i < |cs| ==>
               InputsFound(output.candidates[i], messages) && cs[i] == ProjectedCandidate(output.candidates[i], messages)
    ensures DurableContext(output.context.text, rs, output.context.uncertainties, output.context.sourceRefs)
            == ProjectedContext(output.context, messages)
    ensures cs == ProjectedCandidates(output.candidates, messages)
  {
    hide QuoteFound, ProjectedCandidate, ProjectedReference;
    assert rs == ProjectedContext(output.context, messages).references;
  }

  // The preflight: every source is visible and authoritative, every quote is found.
  method Preflight(input: ModelInput, output: ModelOutput, messages: Messages)
    returns (r: Option<(DurableContext, seq<DurableCandidate>)>)
    ensures r.Some? <==> Provenance(input, output, messages)
    ensures r.Some? ==> r.value == (ProjectedContext(output.context, messages),
                                    ProjectedCandidates(output.candidates, messages))
  {
    hide Provenance, QuoteFound, ProjectedCandidate, ProjectedReference, SourcesVisible, InputsFound, ReferencesFound,
      AllInputsFound, ProjectedContext, ProjectedCandidates;
    ProvenanceExactly(input, output, messages);
    if input.messageRef != output.messageRef { return None; }
    if !SourcesVisible(input, output) { return None; }
    if !Known(messages, input.messageRef) || messages[input.messageRef] != input.query { return None; }
    if exists m :: m in output.context.sourceRefs && !Known(messages, m) { return None; }
    var references := ProjectReferences(output.context.references, messages);
    if references.None? { return None; }
    var candidates := ProjectCandidates(output.candidates, messages);
    if candidates.None? { return None; }
    ProjectedWhole(output, messages, references.value, candidates.value);
    var context := DurableContext(output.context.text, references.value, output.context.uncertainties, output.context.sourceRefs);
    return Some((context, candidates.value));
  }

  method Dictionary(allocations: seq<Allocation>) returns (ids: Allocations)
    requires forall i, j :: 0 <= i < j < |allocations| ==> allocations[i].candidateRef != allocations[j].candidateRef
    ensures ByCandidate(allocations, ids)
  {
    ids := map[];
    for i := 0 to |allocations|
      invariant ids.Keys == set k | 0 <= k < i :: allocations[k].candidateRef
      invariant forall k :: 0 <= k < i ==> ids[allocations[k].candidateRef] == allocations[k]
    {
      ids := ids[allocations[i].candidateRef := allocations[i]];
    }
  }

  // One decision a candidate, in order, and one graph for each that is accepted.
  method ReduceCandidates(output: ModelOutput, cs: seq<Candidate>, ids: Allocations, owner: string, now: Time)
    returns (decisions: seq<CandidateDecision>, graphs: seq<TaskGraph>)
    requires forall c :: c in cs ==> c.candidateId in ids
    ensures decisions == Decisions(output, cs) && graphs == Graphs(output, cs, ids, owner, now)
  {
    hide Rejection, GraphFor, DecisionFor;
    decisions, graphs := [], [];
    for i := 0 to |cs|
      invariant |decisions| == i && forall k :: 0 <= k < i ==> decisions[k] == DecisionFor(output, cs[k])
      invariant forall c :: c in cs[..i] ==> c.candidateId in ids
      invariant graphs == Graphs(output, cs[..i], ids, owner, now)
    {
      var c := cs[i];
      assert c in cs && cs[..i + 1][..i] == cs[..i];
      var rejection := Rejection(output, c);
      decisions := decisions + [CandidateDecision(c.candidateId, rejection.None?, rejection)];
      assert decisions[i] == DecisionFor(output, c) by { DecisionIs(output, c); }
      if rejection.Some? { continue; }
      graphs := graphs + [GraphFor(output, c, ids[c.candidateId], owner, now)];
    }
    assert cs[..|cs|] == cs;
  }

  // Total on valid output: refused for provenance exactly when provenance fails,
  // for identities exactly when they are not distinct, and never for the closure.
  method Reduce(input: ModelInput, output: ModelOutput, messages: Messages, owner: string, recordId: Id,
                allocations: seq<Allocation>, moveRef: Id, now: Time)
    returns (r: Reduction, ghost ids: Allocations)
    requires output.Valid()
    ensures r == Refused(SourceProvenanceInvalid) <==> !Provenance(input, output, messages)
    ensures r == Refused(ClosureCommitFailed) <==>
              Provenance(input, output, messages) && !AllocationsOk(allocations, output.candidates, recordId, moveRef)
    ensures r.Decided? ==>
              && ByCandidate(allocations, ids)
              && (forall c :: c in output.candidates ==> c.candidateId in ids)
              && var gs := Graphs(output, output.candidates, ids, owner, now);
                 r.decision == DecisionOf(output, ClosureOf(input, output, messages, gs, recordId, moveRef, now), gs, moveRef)
                 && r.decision.Valid()
  {
    hide Provenance, AllocationsOk, Rejection, GraphFor, DecisionFor, Decision.Valid, Apart, ModelOutput.Valid, Sourced,
      ProjectedContext, ProjectedCandidate, ChildDeltas, DeltaChains.ReducerChains, DeltaChains.InOrder, Separate,
      QuotesFound, Distinct, Understanding.Elements;
    ids := map[];
    var projected := Preflight(input, output, messages);
    if projected.None? { return Refused(SourceProvenanceInvalid), ids; }
    if !AllocationsOk(allocations, output.candidates, recordId, moveRef) { return Refused(ClosureCommitFailed), ids; }
    RefsDistinct(allocations, output.candidates, recordId, moveRef);
    var byCandidate := Dictionary(allocations);
    ids := byCandidate;
    AllocationsApart(allocations, output.candidates, recordId, moveRef, byCandidate);

    var cs := output.candidates;
    var decisions, graphs := ReduceCandidates(output, cs, byCandidate, owner, now);
    var at := GraphsSourced(output, cs, byCandidate, owner, now);
    assert Given(input, output, messages, byCandidate, recordId, moveRef);

    var chained := DeltaChains.ReducerAccepts(CandidateRefs(cs), ChildDeltas(graphs));
    CandidateRefsDistinct(output);
    GraphsSeparate(output, byCandidate, recordId, moveRef, owner, now, graphs, at);
    SeparateChains(CandidateRefs(cs), ChildDeltas(graphs));
    assert chained;

    var one := |cs| == 1 && |graphs| == 1;
    assert QuotesFound(output, messages) by { ProvenanceQuotes(input, output, messages); }
    var record := UnderstandingRecord(
      recordId, input.runId, output.messageRef, projected.value.0, projected.value.1, decisions, DeltaIds(graphs),
      if one then output.move.base else None, if one then Some(1) else None, if one then Some(moveRef) else None, now);
    var closure := Closure(record, Deltas(graphs));
    assert closure == ClosureOf(input, output, messages, graphs, recordId, moveRef, now);
    DecisionValid(input, output, messages, byCandidate, owner, recordId, moveRef, now, graphs, at);
    r := Decided(if graphs == [] then NoTask(closure)
                 else if one then Routable(closure, graphs[0], moveRef, output.move)
                 else Unrouted(closure, graphs));
  }

  lemma RefsDistinct(allocations: seq<Allocation>, cs: seq<Candidate>, recordId: Id, moveRef: Id)
    requires AllocationsOk(allocations, cs, recordId, moveRef)
    ensures forall i, j :: 0 <= i < j < |allocations| ==> allocations[i].candidateRef != allocations[j].candidateRef
  {
  }

  lemma DecisionIs(output: ModelOutput, c: Candidate)
    ensures DecisionFor(output, c) == CandidateDecision(c.candidateId, Rejection(output, c).None?, Rejection(output, c))
  {
  }

  function CandidateRefs(cs: seq<Candidate>): (r: seq<Id>)
    ensures |r| == |cs| && forall i :: 0 <= i < |cs| ==> r[i] == cs[i].candidateId
  {
    seq(|cs|, i requires 0 <= i < |cs| => cs[i].candidateId)
  }

  lemma CandidateRefsDistinct(output: ModelOutput)
    requires output.Valid()
    ensures Distinct(CandidateRefs(output.candidates))
  {
  }

  // ----- What the three outcomes mean -----

  ghost predicate Acceptable(output: ModelOutput, c: Candidate) {
    output.context.uncertainties == [] && |c.inputs| == 1 && exists orderId :: Names(c.inputs[0].value, orderId)
  }

  lemma AcceptableExactly(output: ModelOutput, c: Candidate)
    requires output.Valid() && c in output.candidates
    ensures Rejection(output, c).None? <==> Acceptable(output, c)
  {
    assert output.CandidateOk(c);
    AcceptedExactly(output, c);
    hide Rejection, ModelOutput.Valid, Names;
  }

  // No Task when nothing is acceptable, routable when the only candidate is, unrouted otherwise.
  lemma OutcomeExactly(input: ModelInput, output: ModelOutput, messages: Messages, ids: Allocations, owner: string,
                       recordId: Id, moveRef: Id, now: Time)
    requires output.Valid() && QuotesFound(output, messages)
    requires forall c :: c in output.candidates ==> c.candidateId in ids
    ensures var gs := Graphs(output, output.candidates, ids, owner, now);
            var d := DecisionOf(output, ClosureOf(input, output, messages, gs, recordId, moveRef, now), gs, moveRef);
            && (d.NoTask? <==> forall c :: c in output.candidates ==> !Acceptable(output, c))
            && (d.Routable? <==> |output.candidates| == 1 && Acceptable(output, output.candidates[0]))
            && (forall i :: 0 <= i < |output.candidates| ==>
                  && (d.closure.record.decisions[i].accepted <==> Acceptable(output, output.candidates[i]))
                  && d.closure.record.decisions[i].candidateRef == output.candidates[i].candidateId
                  && d.closure.record.decisions[i].reason == Rejection(output, output.candidates[i]))
  {
    hide Rejection, Acceptable, Graphs, AcceptedCount, ProjectedContext, ProjectedCandidate, ProjectedCandidates, GraphFor,
      ModelOutput.CandidateOk, QuotesFound;
    var cs := output.candidates;
    var gs := Graphs(output, cs, ids, owner, now);
    forall i | 0 <= i < |cs| ensures Rejection(output, cs[i]).None? <==> Acceptable(output, cs[i]) {
      AcceptableExactly(output, cs[i]);
    }
    var at := GraphsSourced(output, cs, ids, owner, now);
    if gs != [] { assert SourcedAt(output, cs, ids, owner, now, gs[0], at[0]); }
    if |cs| == 1 && Acceptable(output, cs[0]) {
      assert 0 in at;
      SourcedInside(output, cs, ids, owner, now, gs, at);
    }
  }

  lemma Short(at: seq<nat>)
    requires forall i :: 0 <= i < |at| ==> at[i] == 0
    requires forall i, j :: 0 <= i < j < |at| ==> at[i] < at[j]
    ensures |at| <= 1
  {
    if |at| > 1 { PairRises(at); }
  }

  lemma PairRises(at: seq<nat>)
    requires 2 <= |at| && forall i, j :: 0 <= i < j < |at| ==> at[i] < at[j]
    ensures at[0] < at[1]
  {
  }

  lemma SourcedInside(output: ModelOutput, cs: seq<Candidate>, ids: Allocations, owner: string, now: Time,
                      gs: seq<TaskGraph>, at: seq<nat>)
    requires Sourced(output, cs, ids, owner, now, gs, at) && |cs| == 1
    ensures |gs| <= 1
  {
    forall i | 0 <= i < |at| ensures at[i] == 0 {
      assert SourcedAt(output, cs, ids, owner, now, gs[i], at[i]);
    }
    Short(at);
  }

  // ----- The write the service makes of a routable decision -----

  function InitialGraphCommand(d: Decision, owner: string, conversation: Conversation, message: Message, run: Run): CreateGraphCommand
    requires d.Routable?
  {
    CreateGraphCommand(
      owner, conversation, [message], run, d.closure.record, d.graph.delta, d.graph.task, d.graph.unit,
      d.graph.binding, d.graph.unit.unitId,
      ConversationTaskLink(conversation.conversationId, d.graph.task.taskId, d.closure.record.createdAt, None),
      RunTaskLink(run.runId, d.graph.task.taskId, None, None))
  }

  // With the one message of the conversation as only source, the routable graph
  // satisfies the initial-graph command.
  lemma RoutableGraphIsWritable(d: Decision, owner: string, conversation: Conversation, message: Message, run: Run)
    requires d.Routable? && d.Valid() && d.graph.task.owner == owner == conversation.owner
    requires d.move.base.None?
    requires d.closure.record.runId == run.runId && d.closure.record.messageRef == message.messageId
    requires d.closure.record.MessageRefs() == {message.messageId}
    requires message.direction.FromUser? && message.conversationId == conversation.conversationId
    requires run.Valid() && run.status.RunRunning? && run.incompleteReason.None?
    requires run.conversationId == Some(conversation.conversationId)
    requires message.receivedAt <= d.closure.record.createdAt && run.startedAt <= d.closure.record.createdAt
    ensures InitialGraphCommand(d, owner, conversation, message, run).Valid()
  {
    var c := InitialGraphCommand(d, owner, conversation, message, run);
    hide Decision.Valid, CreateGraphCommand.RootsClose, CreateGraphCommand.AcceptedChildCloses,
      CreateGraphCommand.BindingProjectsCandidate, CreateGraphCommand.CleanTaskAndUnit, CreateGraphCommand.OneTimestamp,
      UnderstandingRecord.MessageRefs;
    WritableChild(d, c);
    WritableGraph(d, c);
    WritableRoots(c, message);
  }

  lemma WritableRoots(c: CreateGraphCommand, message: Message)
    requires c.messages == [message] && c.record.MessageRefs() == {message.messageId}
    requires c.run.Valid() && c.run.status.RunRunning? && c.run.incompleteReason.None?
    requires c.conversation.owner == c.owner && message.conversationId == c.conversation.conversationId
    requires c.run.conversationId == Some(c.conversation.conversationId) && c.record.runId == c.run.runId
    requires c.run.startedAt <= c.record.createdAt && c.CurrentMessage(message)
    ensures c.RootsClose()
  {
    hide UnderstandingRecord.MessageRefs, Run.Valid;
  }

  lemma OneDecision(r: UnderstandingRecord)
    requires r.Valid() && |r.candidates| == |r.decisions| == 1
    ensures r.decisions[0].candidateRef == r.candidates[0].candidateId
  {
    hide DurableContext.Valid;
    assert DecisionRefs(r.decisions)[0] in Elements(DecisionRefs(r.decisions));
    assert r.decisions[0].candidateRef in Elements(CandidateIds(r.candidates));
  }

  lemma WritableChild(d: Decision, c: CreateGraphCommand)
    requires d.Routable? && d.Valid() && d.move.base.None? && c.record == d.closure.record && c.delta == d.graph.delta
    ensures c.AcceptedChildCloses()
  {
    hide TaskGraph.Projects, UnderstandingRecord.Valid;
    var r := d.closure.record;
    assert d.closure.children[0] in d.closure.children;
    assert d.closure.Preserves(d.graph.delta);
    OneDecision(r);
    assert d.graph.delta.goalText == r.candidates[0].goalPatch by {
      var x :| x in r.candidates && x.candidateId == d.graph.delta.candidateRef && x.goalPatch == d.graph.delta.goalText;
    }
  }

  lemma WritableGraph(d: Decision, c: CreateGraphCommand)
    requires d.Routable? && d.Valid() && c.record == d.closure.record && c.delta == d.graph.delta
    requires c.task == d.graph.task && c.unit == d.graph.unit && c.binding == d.graph.binding
    requires c.bindingUnit == c.unit.unitId && c.task.owner == c.owner && c.convLink.linkedAt == c.record.createdAt
    ensures c.BindingProjectsCandidate() && c.CleanTaskAndUnit() && c.OneTimestamp()
  {
    hide UnderstandingRecord.Valid, Normalize;
    var r, g := d.closure.record, d.graph;
    assert d.closure.children[0] in d.closure.children;
    assert d.closure.Preserves(g.delta);
    WritableIds(r.recordId, g, d.moveRef);
    var x :| x in r.candidates && x.candidateId == g.delta.candidateRef
             && g.delta.messageRef == r.messageRef && g.delta.goalText == x.goalPatch && |x.inputs| == 1
             && Normalize(x.inputs[0].value) == Some(g.binding.orderId)
             && g.binding.sourceRefs == [x.inputs[0].sourceRef];
    assert x == r.candidates[0];
  }

  lemma WritableIds(recordId: Id, g: TaskGraph, moveRef: Id)
    requires Distinct([recordId] + g.Ids() + [moveRef])
    ensures Distinct([recordId, moveRef, g.delta.deltaId, g.task.taskId, g.unit.unitId, g.binding.bindingId])
  {
    var xs := [recordId] + g.Ids() + [moveRef];
    assert xs == [recordId, g.delta.deltaId, g.task.taskId, g.unit.unitId, g.binding.bindingId, moveRef];
    assert xs[0] != xs[1] && xs[0] != xs[2] && xs[0] != xs[3] && xs[0] != xs[4] && xs[0] != xs[5];
    assert xs[1] != xs[5] && xs[2] != xs[5] && xs[3] != xs[5] && xs[4] != xs[5];
  }
}
