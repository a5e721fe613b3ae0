// From the user's message to the order query: one identifier, in four places.

module Integrity {
  import opened Records
  import opened Proposals
  import opened OrderId
  import opened SourceSpan
  import opened Reducer
  import opened Gateway

  // What get_order is asked for: the authenticated customer and the bound order id.
  datatype OrderQuery = OrderQuery(customerId: string, orderId: string)

  // The order id stands in the text, its first letter in either case.
  predicate WrittenIn(text: string, orderId: string) {
    && IsOrderId(orderId)
    && exists i :: 0 <= i <= |text| - |orderId| && (text[i] == 'o' || text[i] == 'O')
                   && text[i + 1..i + |orderId|] == orderId[1..]
  }

  lemma SliceOfSlice(text: string, i: nat, j: nat, s: nat, e: nat)
    requires i <= j <= |text| && s <= e <= j - i
    ensures text[i..j][s..e] == text[i + s..i + e]
  {
    forall k | 0 <= k < e - s ensures text[i..j][s..e][k] == text[i + s..i + e][k] { }
  }

  // What stands in a part of a text is written in the text.
  lemma PartIsWritten(text: string, i: nat, j: nat, orderId: string, s: nat)
    requires i <= j <= |text| && StandsAt(text[i..j], orderId, s)
    ensures WrittenIn(text, orderId)
  {
    hide IsAlnum, IsDigit, IsOrderId;
    OrderIdHasLetter(orderId);
    var part, at := text[i..j], i + s;
    SliceOfSlice(text, i, j, s + 1, s + |orderId|);
    assert part[s] == text[at];
    assert text[at + 1..at + |orderId|] == orderId[1..];
  }

  lemma OrderIdHasLetter(orderId: string)
    requires IsOrderId(orderId)
    ensures |orderId| > 0
  {
  }

  lemma MentionIsWritten(message: string, quote: string, orderId: string)
    requires OccursOnce(message, quote) && MentionsOrderId(quote, orderId)
    ensures WrittenIn(message, orderId)
  {
    hide OrderIdAt, StandsAt, WrittenIn, Normalize;
    var i :| 0 <= i <= |message| && OccursAt(message, quote, i);
    MentionedExactly(quote, orderId);
    var s :| 0 <= s < |quote| && StandsAt(quote, orderId, s);
    PartIsWritten(message, i, i + |quote|, orderId, s);
  }

  // The binding of the routable graph is the normal form of the only candidate's value.
  lemma RoutableBinding(output: ModelOutput, ids: Allocations, owner: string, now: Time)
    requires |output.candidates| == 1 && output.candidates[0].candidateId in ids
    requires forall c :: c in output.candidates ==> c.candidateId in ids
    requires |Graphs(output, output.candidates, ids, owner, now)| == 1
    ensures Rejection(output, output.candidates[0]).None?
    ensures Graphs(output, output.candidates, ids, owner, now)[0]
            == GraphFor(output, output.candidates[0], ids[output.candidates[0].candidateId], owner, now)
  {
    assert output.candidates[..0] == [];
  }

  // Whenever the gate accepts a revalidated move, the order id get_order is asked
  // for is named by the candidate's value and by the model's own argument, with
  // nothing but white space around it, and stands in the user's current message,
  // and the customer is the authenticated owner of the Task.
  lemma ArgumentIntegrity(
    input: ModelInput, output: ModelOutput, messages: Messages, ids: Allocations, customer: string,
    recordId: Id, moveRef: Id, now: Time, d: Decision,
    gateId: Id, task: Task, unit: RequestUnit, s: Snapshot, manifest: ContextManifest, modelCallId: Id,
    budget: Budget, progress: bool, decidedAt: Time, query: OrderQuery)
    requires output.Valid() && Provenance(input, output, messages)
    requires forall c :: c in output.candidates ==> c.candidateId in ids
    requires var gs := Graphs(output, output.candidates, ids, customer, now);
             d == DecisionOf(output, ClosureOf(input, output, messages, gs, recordId, moveRef, now), gs, moveRef)
    requires d.Routable? && Revalidate(d, d.graph.task, d.graph.unit, d.graph.binding).Some?
    requires var m := Revalidate(d, d.graph.task, d.graph.unit, d.graph.binding).value;
             Evaluate(gateId, m, customer, task, unit, d.graph.binding, s, manifest, modelCallId, budget, progress,
                      decidedAt).accepted
    requires query == OrderQuery(customer, d.graph.binding.orderId)
    ensures IsOrderId(query.orderId)
    ensures |output.candidates| == 1 && |output.candidates[0].inputs| == 1
            && Names(output.candidates[0].inputs[0].value, query.orderId)
    ensures output.move.arguments.Some? && output.move.arguments.value.Keys == {"order_id"}
            && output.move.arguments.value["order_id"].JsonText?
            && Names(output.move.arguments.value["order_id"].text, query.orderId)
    ensures WrittenIn(input.query, query.orderId)
    ensures query.customerId == customer == task.owner && d.graph.task.owner == customer
  {
    hide Normalize, Checks, GraphFor, ProjectedContext, ProjectedCandidate, ResolveValidatedGetOrder, MentionsOrderId,
      ArgumentsFree, CandidateOrderId, Names, WrittenIn;
    var m := Revalidate(d, d.graph.task, d.graph.unit, d.graph.binding).value;
    AcceptanceSuffices(gateId, m, customer, task, unit, d.graph.binding, s, manifest, modelCallId, budget, progress,
                       decidedAt);
    RoutableBinding(output, ids, customer, now);
    var c := output.candidates[0];
    assert c in output.candidates && output.CandidateOk(c) && c.inputs[0] in c.inputs;
    GraphBinds(output, c, ids[c.candidateId], customer, now);
    assert QuoteFound(messages, c.inputs[0].sourceRef, c.inputs[0].quote, c.inputs[0].value);
    MentionIsWritten(input.query, c.inputs[0].quote, query.orderId);
    NormalizesExactly(c.inputs[0].value, query.orderId);
  }

  lemma GraphBinds(output: ModelOutput, c: Candidate, a: Allocation, owner: string, now: Time)
    requires Rejection(output, c).None?
    ensures |c.inputs| == 1 && Normalize(c.inputs[0].value) == Some(GraphFor(output, c, a, owner, now).binding.orderId)
    ensures GraphFor(output, c, a, owner, now).task.owner == owner
    ensures IsOrderId(GraphFor(output, c, a, owner, now).binding.orderId)
  {
    hide Normalize, Uncertain, IsOrderId;
  }
}
