// The reducer never fails on what it has accepted: every record it constructs
// passes its own validator, for any number of candidates.

module ReducerTotal {
  import opened Records
  import opened Understanding
  import opened Proposals
  import opened OrderId
  import opened SourceSpan
  import opened Reducer
  import DeltaChains

  ghost predicate Given(input: ModelInput, output: ModelOutput, messages: Messages, ids: Allocations,
                        recordId: Id, moveRef: Id)
  {
    && output.Valid() && Provenance(input, output, messages) && Apart(ids, recordId, moveRef)
    && forall c :: c in output.candidates ==> c.candidateId in ids
  }

  lemma GraphValid(output: ModelOutput, c: Candidate, a: Allocation, owner: string, now: Time)
    requires output.Valid() && c in output.candidates && Rejection(output, c).None? && Distinct(AllocationIds(a))
    ensures GraphFor(output, c, a, owner, now).Valid()
  {
    hide Distinct, Rejection, Normalize, ModelOutput.Valid;
    GoalStated(output, c);
    Reordered(a.deltaId, a.taskId, a.unitId, a.bindingId);
  }

  lemma GoalStated(output: ModelOutput, c: Candidate)
    requires output.Valid() && c in output.candidates
    ensures c.goalPatch != ""
  {
    assert output.CandidateOk(c);
  }

  lemma Reordered(d: Id, t: Id, u: Id, b: Id)
    requires Distinct([d, t, u, b])
    ensures Distinct([d, b, t, u])
  {
    var xs := [d, t, u, b];
    assert xs[0] != xs[1] && xs[0] != xs[2] && xs[0] != xs[3] && xs[1] != xs[2] && xs[1] != xs[3] && xs[2] != xs[3];
  }

  // ----- The record -----

  lemma CandidatesProject(input: ModelInput, output: ModelOutput, messages: Messages)
    requires output.Valid() && QuotesFound(output, messages)
    ensures var ds := ProjectedCandidates(output.candidates, messages);
            && (forall d :: d in ds ==> d.Valid())
            && Distinct(CandidateIds(ds))
            && (forall i, j :: 0 <= i < |ds| && 0 <= j < |ds[i].inputs| ==> ds[i].inputs[j].sourceRef == output.messageRef)
            && (forall i :: 0 <= i < |ds| ==> CandidateIds(ds)[i] == output.candidates[i].candidateId)
  {
    var ds := ProjectedCandidates(output.candidates, messages);
    hide SpanOf, QuoteFound;
    forall i | 0 <= i < |ds|
      ensures ds[i].Valid() && ds[i].candidateId == output.candidates[i].candidateId
      ensures forall j :: 0 <= j < |ds[i].inputs| ==> ds[i].inputs[j].sourceRef == output.messageRef
    {
      assert output.CandidateOk(output.candidates[i]);
    }
  }

  lemma DecisionsMatch(output: ModelOutput, ds: seq<DurableCandidate>)
    requires output.Valid() && |ds| == |output.candidates|
    requires forall i :: 0 <= i < |ds| ==> ds[i].candidateId == output.candidates[i].candidateId
    ensures var vs := Decisions(output, output.candidates);
            && (forall v :: v in vs ==> v.Valid())
            && Distinct(DecisionRefs(vs))
            && Elements(DecisionRefs(vs)) == Elements(CandidateIds(ds))
  {
    var vs := Decisions(output, output.candidates);
    hide Rejection;
    assert DecisionRefs(vs) == CandidateIds(ds);
  }

  // The identities and sources graph i takes from its candidate and allocation.
  ghost predicate Takes(g: TaskGraph, c: Candidate, a: Allocation, output: ModelOutput, now: Time) {
    && g.delta.candidateRef == c.candidateId && g.delta.goalText == c.goalPatch
    && g.delta.messageRef == output.messageRef && g.delta.acceptedAt == now
    && g.Ids() == AllocationIds(a) && |c.inputs| == 1
    && Normalize(c.inputs[0].value) == Some(g.binding.orderId)
    && g.binding.sourceRefs == [c.inputs[0].sourceRef]
    && g.Valid()
  }

  lemma GraphTakes(output: ModelOutput, ids: Allocations, recordId: Id, moveRef: Id, owner: string, now: Time,
                   gs: seq<TaskGraph>, at: seq<nat>, i: nat)
    requires output.Valid() && Apart(ids, recordId, moveRef)
    requires Sourced(output, output.candidates, ids, owner, now, gs, at) && i < |gs|
    ensures at[i] < |output.candidates|
    ensures var c := output.candidates[at[i]];
            && c in output.candidates && Rejection(output, c).None? && c.candidateId in ids
            && Takes(gs[i], c, ids[c.candidateId], output, now)
  {
    assert SourcedAt(output, output.candidates, ids, owner, now, gs[i], at[i]);
    var c := output.candidates[at[i]];
    assert c in output.candidates && output.CandidateOk(c);
    GraphValid(output, c, ids[c.candidateId], owner, now);
  }

  lemma AllocationsDiffer(ids: Allocations, recordId: Id, moveRef: Id, k: Id, l: Id)
    requires Apart(ids, recordId, moveRef) && k in ids && l in ids && k != l
    ensures ids[k].deltaId != ids[l].deltaId && ids[k].taskId != ids[l].taskId
  {
    assert AllocationIds(ids[k])[0] in AllocationIds(ids[k]) && AllocationIds(ids[k])[1] in AllocationIds(ids[k]);
    assert AllocationIds(ids[l])[0] in AllocationIds(ids[l]) && AllocationIds(ids[l])[1] in AllocationIds(ids[l]);
  }

  // Delta identities of different candidates differ.
  lemma DeltasDiffer(output: ModelOutput, ids: Allocations, recordId: Id, moveRef: Id, owner: string, now: Time,
                     gs: seq<TaskGraph>, at: seq<nat>)
    requires output.Valid() && Apart(ids, recordId, moveRef)
    requires Sourced(output, output.candidates, ids, owner, now, gs, at)
    ensures forall i, j :: 0 <= i < j < |gs| ==>
              gs[i].delta.deltaId != gs[j].delta.deltaId && gs[i].delta.candidateRef != gs[j].delta.candidateRef
              && gs[i].task.taskId != gs[j].task.taskId
  {
    hide Sourced, Apart, TaskGraph.Valid, Normalize, Takes, Rejection, ModelOutput.Valid;
    forall i, j | 0 <= i < j < |gs|
      ensures gs[i].delta.deltaId != gs[j].delta.deltaId && gs[i].delta.candidateRef != gs[j].delta.candidateRef
      ensures gs[i].task.taskId != gs[j].task.taskId
    {
      PairDiffers(output, ids, recordId, moveRef, owner, now, gs, at, i, j);
    }
  }

  lemma PairDiffers(output: ModelOutput, ids: Allocations, recordId: Id, moveRef: Id, owner: string, now: Time,
                    gs: seq<TaskGraph>, at: seq<nat>, i: nat, j: nat)
    requires output.Valid() && Apart(ids, recordId, moveRef) && i < j < |gs|
    requires Sourced(output, output.candidates, ids, owner, now, gs, at)
    ensures gs[i].delta.deltaId != gs[j].delta.deltaId && gs[i].delta.candidateRef != gs[j].delta.candidateRef
    ensures gs[i].task.taskId != gs[j].task.taskId
  {
    hide Sourced, Apart, TaskGraph.Valid, Normalize, Rejection, ModelOutput.CandidateOk;
    GraphTakes(output, ids, recordId, moveRef, owner, now, gs, at, i);
    GraphTakes(output, ids, recordId, moveRef, owner, now, gs, at, j);
    SourcedRises(output, ids, owner, now, gs, at, i, j);
    var k, l := output.candidates[at[i]].candidateId, output.candidates[at[j]].candidateId;
    AllocationsDiffer(ids, recordId, moveRef, k, l);
    assert gs[i].Ids()[0] == ids[k].deltaId && gs[j].Ids()[0] == ids[l].deltaId;
    assert gs[i].Ids()[1] == ids[k].taskId && gs[j].Ids()[1] == ids[l].taskId;
  }

  lemma SourcedRises(output: ModelOutput, ids: Allocations, owner: string, now: Time, gs: seq<TaskGraph>,
                     at: seq<nat>, i: nat, j: nat)
    requires Sourced(output, output.candidates, ids, owner, now, gs, at) && i < j < |gs|
    ensures |at| == |gs| && at[i] < at[j]
  {
  }

  lemma ProvenanceQuotes(input: ModelInput, output: ModelOutput, messages: Messages)
    requires Provenance(input, output, messages)
    ensures QuotesFound(output, messages)
  {
  }

  lemma RecordValid(input: ModelInput, output: ModelOutput, messages: Messages, ids: Allocations, owner: string,
                    recordId: Id, moveRef: Id, now: Time, gs: seq<TaskGraph>, at: seq<nat>)
    requires Given(input, output, messages, ids, recordId, moveRef)
    requires Sourced(output, output.candidates, ids, owner, now, gs, at)
    requires |gs| == AcceptedCount(Decisions(output, output.candidates))
    ensures ClosureOf(input, output, messages, gs, recordId, moveRef, now).record.Valid()
  {
    hide Sourced, Rejection, Provenance, Apart, QuotesFound, DecisionFor, ProjectedCandidate, ProjectedContext, SourcesVisible;
    ProvenanceQuotes(input, output, messages);
    var record := ClosureOf(input, output, messages, gs, recordId, moveRef, now).record;
    CandidatesProject(input, output, messages);
    DecisionsMatch(output, record.candidates);
    DeltasDiffer(output, ids, recordId, moveRef, owner, now, gs, at);
    assert record.context.Valid() && record.messageRef in record.context.sourceRefs;
  }

  // ----- The children -----

  lemma ChildIsAccepted(output: ModelOutput, ids: Allocations, recordId: Id, moveRef: Id, owner: string, now: Time,
                        gs: seq<TaskGraph>, at: seq<nat>, i: nat)
    requires output.Valid() && Apart(ids, recordId, moveRef)
    requires Sourced(output, output.candidates, ids, owner, now, gs, at) && i < |gs|
    ensures gs[i].delta.candidateRef in AcceptedRefs(Decisions(output, output.candidates))
  {
    GraphTakes(output, ids, recordId, moveRef, owner, now, gs, at, i);
    hide Sourced, Apart, Rejection, TaskGraph.Valid, Normalize;
    var vs := Decisions(output, output.candidates);
    assert vs[at[i]] in vs;
  }

  lemma AcceptedIsChild(output: ModelOutput, ids: Allocations, recordId: Id, moveRef: Id, owner: string, now: Time,
                        gs: seq<TaskGraph>, at: seq<nat>, k: nat) returns (i: nat)
    requires output.Valid() && Apart(ids, recordId, moveRef) && k < |output.candidates|
    requires Sourced(output, output.candidates, ids, owner, now, gs, at)
    requires Rejection(output, output.candidates[k]).None?
    ensures i < |gs| && gs[i].delta.candidateRef == output.candidates[k].candidateId
  {
    i :| 0 <= i < |at| && at[i] == k;
    GraphTakes(output, ids, recordId, moveRef, owner, now, gs, at, i);
  }

  lemma AcceptedChildren(output: ModelOutput, ids: Allocations, recordId: Id, moveRef: Id, owner: string, now: Time,
                         gs: seq<TaskGraph>, at: seq<nat>)
    requires output.Valid() && Apart(ids, recordId, moveRef)
    requires Sourced(output, output.candidates, ids, owner, now, gs, at)
    ensures ChildRefs(Deltas(gs)) == AcceptedRefs(Decisions(output, output.candidates))
  {
    hide Sourced, Apart, Rejection, ModelOutput.Valid;
    var vs := Decisions(output, output.candidates);
    forall r | r in ChildRefs(Deltas(gs)) ensures r in AcceptedRefs(vs) {
      var c :| c in Deltas(gs) && c.candidateRef == r;
      var i :| 0 <= i < |gs| && Deltas(gs)[i] == c;
      ChildIsAccepted(output, ids, recordId, moveRef, owner, now, gs, at, i);
    }
    forall r | r in AcceptedRefs(vs) ensures r in ChildRefs(Deltas(gs)) {
      var d :| d in vs && d.accepted && d.candidateRef == r;
      var k :| 0 <= k < |vs| && vs[k] == d;
      var i := AcceptedIsChild(output, ids, recordId, moveRef, owner, now, gs, at, k);
      assert Deltas(gs)[i] in Deltas(gs);
    }
  }

  lemma TakenProjects(output: ModelOutput, messages: Messages, g: TaskGraph, a: Allocation, k: nat, now: Time,
                      record: UnderstandingRecord)
    requires output.Valid() && QuotesFound(output, messages) && k < |output.candidates|
    requires Takes(g, output.candidates[k], a, output, now)
    requires record.candidates == ProjectedCandidates(output.candidates, messages)
    requires record.messageRef == output.messageRef
    ensures g.Projects(record)
    ensures exists x :: x in record.candidates && x.candidateId == g.delta.candidateRef && x.goalPatch == g.delta.goalText
  {
    hide Normalize, TaskGraph.Valid, QuoteFound, SpanOf;
    var d := record.candidates[k];
    assert output.candidates[k] in output.candidates;
    assert d in record.candidates && d == ProjectedCandidate(output.candidates[k], messages);
    assert |d.inputs| == 1 && d.inputs[0].value == output.candidates[k].inputs[0].value;
  }

  lemma ChildOk(input: ModelInput, output: ModelOutput, messages: Messages, ids: Allocations, owner: string,
                recordId: Id, moveRef: Id, now: Time, gs: seq<TaskGraph>, at: seq<nat>, i: nat, closure: Closure)
    requires Given(input, output, messages, ids, recordId, moveRef)
    requires Sourced(output, output.candidates, ids, owner, now, gs, at) && i < |gs|
    requires closure.record.candidates == ProjectedCandidates(output.candidates, messages)
    requires closure.record.messageRef == output.messageRef && closure.record.createdAt == now
    ensures gs[i].Valid() && gs[i].Projects(closure.record) && closure.Preserves(gs[i].delta)
  {
    GraphTakes(output, ids, recordId, moveRef, owner, now, gs, at, i);
    TakenProjects(output, messages, gs[i], ids[output.candidates[at[i]].candidateId], at[i], now, closure.record);
  }

  lemma ClosureValid(input: ModelInput, output: ModelOutput, messages: Messages, ids: Allocations, owner: string,
                     recordId: Id, moveRef: Id, now: Time, gs: seq<TaskGraph>, at: seq<nat>)
    requires Given(input, output, messages, ids, recordId, moveRef)
    requires Sourced(output, output.candidates, ids, owner, now, gs, at)
    requires |gs| == AcceptedCount(Decisions(output, output.candidates))
    ensures ClosureOf(input, output, messages, gs, recordId, moveRef, now).Valid()
  {
    var closure := ClosureOf(input, output, messages, gs, recordId, moveRef, now);
    RecordValid(input, output, messages, ids, owner, recordId, moveRef, now, gs, at);
    AcceptedChildren(output, ids, recordId, moveRef, owner, now, gs, at);
    DeltasDiffer(output, ids, recordId, moveRef, owner, now, gs, at);
    forall i | 0 <= i < |gs| ensures closure.Preserves(gs[i].delta) {
      hide UnderstandingRecord.Valid, Sourced, AcceptedDelta.Valid, TaskGraph.Projects, Closure.Preserves, Provenance,
        ModelOutput.Valid, Apart, ProjectedCandidate, ProjectedContext, DecisionFor;
      ChildOk(input, output, messages, ids, owner, recordId, moveRef, now, gs, at, i, closure);
    }
    hide UnderstandingRecord.Valid, Sourced, Closure.Preserves, Given, AcceptedRefs, ChildRefs, ProjectedCandidates,
      ProjectedContext, Decisions;
    ClosureFrom(closure, gs);
  }

  lemma ClosureFrom(closure: Closure, gs: seq<TaskGraph>)
    requires closure.record.Valid() && closure.children == Deltas(gs) && closure.record.acceptedRefs == DeltaIds(gs)
    requires forall i, j :: 0 <= i < j < |gs| ==>
               gs[i].delta.deltaId != gs[j].delta.deltaId && gs[i].delta.candidateRef != gs[j].delta.candidateRef
    requires forall i :: 0 <= i < |gs| ==> closure.Preserves(gs[i].delta)
    requires ChildRefs(Deltas(gs)) == AcceptedRefs(closure.record.decisions)
    ensures closure.Valid()
  {
    hide UnderstandingRecord.Valid, Closure.Preserves, AcceptedRefs, ChildRefs;
    SameIds(gs);
  }

  lemma SameIds(gs: seq<TaskGraph>)
    ensures ChildIds(Deltas(gs)) == (set d | d in DeltaIds(gs))
  {
    forall d | d in DeltaIds(gs) ensures d in ChildIds(Deltas(gs)) {
      var i :| 0 <= i < |gs| && DeltaIds(gs)[i] == d;
      assert Deltas(gs)[i] in Deltas(gs);
    }
    forall c | c in Deltas(gs) ensures c.deltaId in DeltaIds(gs) {
      var i :| 0 <= i < |gs| && Deltas(gs)[i] == c;
      assert DeltaIds(gs)[i] in DeltaIds(gs);
    }
  }

  // ----- Identities of several graphs -----

  lemma DistinctJoin<T>(a: seq<T>, b: seq<T>)
    requires Distinct(a) && Distinct(b) && forall x :: x in a ==> x !in b
    ensures Distinct(a + b)
  {
    forall i, j | 0 <= i < j < |a + b| ensures (a + b)[i] != (a + b)[j] {
      if i < |a| { assert a[i] in a; }
    }
  }

  // Graphs whose identities come from different allocations.
  ghost predicate Drawn(ids: Allocations, gs: seq<TaskGraph>, keys: seq<Id>) {
    && |keys| == |gs| && Distinct(keys)
    && forall i :: 0 <= i < |gs| ==> keys[i] in ids && gs[i].Ids() == AllocationIds(ids[keys[i]])
  }

  lemma {:induction false} AllIdsFrom(ids: Allocations, gs: seq<TaskGraph>, keys: seq<Id>, x: Id) returns (i: nat)
    requires Drawn(ids, gs, keys) && x in AllIds(gs)
    ensures i < |gs| && x in AllocationIds(ids[keys[i]])
  {
    var n := |gs| - 1;
    if x in gs[n].Ids() {
      i := n;
    } else {
      assert Drawn(ids, gs[..n], keys[..n]);
      i := AllIdsFrom(ids, gs[..n], keys[..n], x);
    }
  }

  lemma {:induction false} AllIdsDistinct(ids: Allocations, recordId: Id, moveRef: Id, gs: seq<TaskGraph>, keys: seq<Id>)
    requires Apart(ids, recordId, moveRef) && Drawn(ids, gs, keys)
    ensures Distinct(AllIds(gs)) && recordId !in AllIds(gs) && moveRef !in AllIds(gs)
  {
    if gs != [] {
      var n := |gs| - 1;
      assert Drawn(ids, gs[..n], keys[..n]);
      AllIdsDistinct(ids, recordId, moveRef, gs[..n], keys[..n]);
      forall x | x in AllIds(gs[..n]) ensures x !in gs[n].Ids() {
        var i := AllIdsFrom(ids, gs[..n], keys[..n], x);
        assert keys[i] != keys[n];
      }
      DistinctJoin(AllIds(gs[..n]), gs[n].Ids());
    }
  }

  lemma GraphsDrawn(output: ModelOutput, ids: Allocations, recordId: Id, moveRef: Id, owner: string, now: Time,
                    gs: seq<TaskGraph>, at: seq<nat>) returns (keys: seq<Id>)
    requires output.Valid() && Apart(ids, recordId, moveRef)
    requires Sourced(output, output.candidates, ids, owner, now, gs, at)
    ensures Drawn(ids, gs, keys)
  {
    forall i | 0 <= i < |gs| ensures at[i] < |output.candidates| {
      GraphTakes(output, ids, recordId, moveRef, owner, now, gs, at, i);
    }
    keys := seq(|gs|, i requires 0 <= i < |gs| => output.candidates[at[i]].candidateId);
    forall i | 0 <= i < |gs| ensures keys[i] in ids && gs[i].Ids() == AllocationIds(ids[keys[i]]) {
      GraphTakes(output, ids, recordId, moveRef, owner, now, gs, at, i);
    }
    forall i, j | 0 <= i < j < |gs| ensures keys[i] != keys[j] {
      SourcedRises(output, ids, owner, now, gs, at, i, j);
    }
  }

  lemma RecordIdsDistinct(recordId: Id, moveRef: Id, xs: seq<Id>)
    requires Distinct(xs) && recordId !in xs && moveRef !in xs && recordId != moveRef
    ensures Distinct([recordId] + xs) && Distinct([recordId] + xs + [moveRef])
  {
    DistinctJoin([recordId], xs);
    DistinctJoin([recordId] + xs, [moveRef]);
  }

  // ----- The decision -----

  lemma {:induction false} AllAccepted(ds: seq<CandidateDecision>)
    ensures AcceptedCount(ds) == 0 <==> forall d :: d in ds ==> !d.accepted
    ensures |ds| == 1 ==> (AcceptedCount(ds) == 1 <==> ds[0].accepted)
  {
    if ds != [] {
      AllAccepted(ds[..|ds| - 1]);
      assert ds == ds[..|ds| - 1] + [ds[|ds| - 1]];
    }
  }

  lemma RoutableValid(closure: Closure, g: TaskGraph, moveRef: Id, move: NextMove)
    requires closure.Valid() && g.Valid() && g.Projects(closure.record) && closure.children == [g.delta]
    requires |closure.record.candidates| == |closure.record.decisions| == 1 && closure.record.decisions[0].accepted
    requires closure.record.acceptedRefs == [g.delta.deltaId] && closure.record.nextMoveRef == Some(moveRef)
    requires closure.record.proposedBase == move.base && closure.record.validatedVersion == Some(1)
    requires Distinct([closure.record.recordId] + g.Ids() + [moveRef])
    ensures Routable(closure, g, moveRef, move).Valid()
  {
    hide TaskGraph.Valid, TaskGraph.Projects, TaskGraph.Ids;
    var r := closure.record;
    assert ChildRefs(closure.children) == {g.delta.candidateRef} by { assert closure.children[0] in closure.children; }
    assert g.delta.candidateRef in AcceptedRefs(r.decisions);
    assert DecisionRefs(r.decisions)[0] == r.decisions[0].candidateRef;
    assert r.decisions[0].candidateRef in set x | x in DecisionRefs(r.decisions);
    assert CandidateIds(r.candidates)[0] == r.candidates[0].candidateId;
  }

  lemma UnroutedValid(closure: Closure, gs: seq<TaskGraph>)
    requires closure.Valid() && 1 <= AcceptedCount(closure.record.decisions) == |gs|
    requires closure.children == Deltas(gs) && closure.record.acceptedRefs == DeltaIds(gs)
    requires forall i :: 0 <= i < |gs| ==> gs[i].Valid() && gs[i].Projects(closure.record)
    requires closure.record.nextMoveRef.None? && closure.record.proposedBase.None?
    requires closure.record.validatedVersion.None? && !(|closure.record.candidates| == 1 && |gs| == 1)
    requires Distinct([closure.record.recordId] + AllIds(gs))
    ensures Unrouted(closure, gs).Valid()
  {
    hide TaskGraph.Valid, TaskGraph.Projects, Closure.Valid, AllIds, AcceptedCount;
  }

  lemma OneGraphIds(gs: seq<TaskGraph>)
    requires |gs| == 1
    ensures AllIds(gs) == gs[0].Ids()
  {
    assert gs[..0] == [];
  }

  lemma NoTaskValid(closure: Closure)
    requires closure.Valid() && closure.children == [] && AcceptedCount(closure.record.decisions) == 0
    requires closure.record.nextMoveRef.None? && closure.record.proposedBase.None?
    requires closure.record.validatedVersion.None?
    ensures NoTask(closure).Valid()
  {
    hide Closure.Valid;
    AllAccepted(closure.record.decisions);
  }

  lemma GraphIdsDistinct(output: ModelOutput, ids: Allocations, recordId: Id, moveRef: Id, owner: string, now: Time,
                         gs: seq<TaskGraph>, at: seq<nat>)
    requires output.Valid() && Apart(ids, recordId, moveRef)
    requires Sourced(output, output.candidates, ids, owner, now, gs, at)
    ensures Distinct([recordId] + AllIds(gs)) && Distinct([recordId] + AllIds(gs) + [moveRef])
  {
    hide Sourced, ModelOutput.Valid;
    var keys := GraphsDrawn(output, ids, recordId, moveRef, owner, now, gs, at);
    AllIdsDistinct(ids, recordId, moveRef, gs, keys);
    RecordIdsDistinct(recordId, moveRef, AllIds(gs));
  }

  lemma CaseValid(output: ModelOutput, closure: Closure, gs: seq<TaskGraph>, moveRef: Id)
    requires closure.Valid() && |gs| == AcceptedCount(closure.record.decisions)
    requires closure.children == Deltas(gs) && closure.record.acceptedRefs == DeltaIds(gs)
    requires |closure.record.candidates| == |closure.record.decisions| == |output.candidates|
    requires var one := ExactlyOne(output, gs);
             && closure.record.proposedBase == (if one then output.move.base else None)
             && closure.record.validatedVersion == (if one then Some(1) else None)
             && closure.record.nextMoveRef == if one then Some(moveRef) else None
    requires forall i :: 0 <= i < |gs| ==> gs[i].Valid() && gs[i].Projects(closure.record)
    requires Distinct([closure.record.recordId] + AllIds(gs))
    requires Distinct([closure.record.recordId] + AllIds(gs) + [moveRef])
    ensures DecisionOf(output, closure, gs, moveRef).Valid()
  {
    hide Closure.Valid, TaskGraph.Valid, TaskGraph.Projects, Decision.Valid, AcceptedCount, TaskGraph.Ids, AllIds;
    if gs == [] {
      NoTaskValid(closure);
    } else if ExactlyOne(output, gs) {
      OneGraphIds(gs);
      AllAccepted(closure.record.decisions);
      RoutableValid(closure, gs[0], moveRef, output.move);
    } else {
      UnroutedValid(closure, gs);
    }
  }

  lemma DecisionValid(input: ModelInput, output: ModelOutput, messages: Messages, ids: Allocations, owner: string,
                      recordId: Id, moveRef: Id, now: Time, gs: seq<TaskGraph>, at: seq<nat>)
    requires Given(input, output, messages, ids, recordId, moveRef)
    requires Sourced(output, output.candidates, ids, owner, now, gs, at)
    requires |gs| == AcceptedCount(Decisions(output, output.candidates))
    ensures DecisionOf(output, ClosureOf(input, output, messages, gs, recordId, moveRef, now), gs, moveRef).Valid()
  {
    var closure := ClosureOf(input, output, messages, gs, recordId, moveRef, now);
    ClosureValid(input, output, messages, ids, owner, recordId, moveRef, now, gs, at);
    GraphIdsDistinct(output, ids, recordId, moveRef, owner, now, gs, at);
    forall i | 0 <= i < |gs| ensures gs[i].Valid() && gs[i].Projects(closure.record) {
      hide Sourced, Closure.Valid, Apart, Provenance, ModelOutput.Valid, TaskGraph.Valid, TaskGraph.Projects;
      ChildOk(input, output, messages, ids, owner, recordId, moveRef, now, gs, at, i, closure);
    }
    hide Closure.Valid, TaskGraph.Valid, TaskGraph.Projects, Decision.Valid, Apart, Provenance, ModelOutput.Valid,
      Sourced, AcceptedCount, ProjectedContext, DecisionFor, AllIds;
    CaseValid(output, closure, gs, moveRef);
  }

  // ----- The reducer's own chain check -----

  function ChildDeltas(gs: seq<TaskGraph>): (r: map<Id, DeltaChains.Delta>)
    ensures forall k :: k in r ==> exists i :: 0 <= i < |gs| && gs[i].delta.candidateRef == k
                                            && r[k] == ChainDelta(gs[i].delta)
  {
    if gs == [] then map[]
    else
      var d, front := gs[|gs| - 1].delta, ChildDeltas(gs[..|gs| - 1]);
      front[d.candidateRef := ChainDelta(d)]
  }

  function ChainDelta(d: AcceptedDelta): DeltaChains.Delta {
    DeltaChains.Delta(d.taskId, d.base, d.result)
  }

  // No two candidates share a Task, so every chain has one link.
  ghost predicate Separate(children: map<Id, DeltaChains.Delta>) {
    && (forall k :: k in children ==> children[k].base.None?)
    && (forall k, l :: k in children && l in children && k != l ==> children[k].task != children[l].task)
  }

  lemma {:induction false} ShortChains(candidates: seq<Id>, children: map<Id, DeltaChains.Delta>, task: Id)
    requires Distinct(candidates) && Separate(children)
    ensures var c := DeltaChains.Of(DeltaChains.InOrder(candidates, children), task);
            && |c| <= 1 && (c != [] ==> c[0].base.None?)
            && (c != [] ==> exists k :: k in candidates && k in children && children[k].task == task)
  {
    if candidates != [] {
      var n := |candidates| - 1;
      var front, last := candidates[..n], candidates[n];
      assert last !in front && candidates == front + [last];
      ShortChains(front, children, task);
      if last in children {
        DeltaChains.OfGrows(DeltaChains.InOrder(front, children), children[last], task);
        assert last in candidates;
      }
    }
  }

  lemma SeparateChains(candidates: seq<Id>, children: map<Id, DeltaChains.Delta>)
    requires Distinct(candidates) && Separate(children)
    ensures DeltaChains.ReducerChains(DeltaChains.InOrder(candidates, children))
  {
    forall t: Id ensures DeltaChains.ReducerOk(DeltaChains.Of(DeltaChains.InOrder(candidates, children), t)) {
      ShortChains(candidates, children, t);
    }
  }

  lemma GraphsSeparate(output: ModelOutput, ids: Allocations, recordId: Id, moveRef: Id, owner: string, now: Time,
                       gs: seq<TaskGraph>, at: seq<nat>)
    requires output.Valid() && Apart(ids, recordId, moveRef)
    requires Sourced(output, output.candidates, ids, owner, now, gs, at)
    ensures Separate(ChildDeltas(gs))
  {
    DeltasDiffer(output, ids, recordId, moveRef, owner, now, gs, at);
    forall i | 0 <= i < |gs| ensures gs[i].delta.base.None? && gs[i].delta.taskId == gs[i].task.taskId {
      GraphTakes(output, ids, recordId, moveRef, owner, now, gs, at, i);
    }
    var children := ChildDeltas(gs);
    hide Sourced, Apart, ModelOutput.Valid, ChildDeltas, TaskGraph.Valid;
    forall k, l | k in children && l in children && k != l ensures children[k].task != children[l].task {
      var i :| 0 <= i < |gs| && gs[i].delta.candidateRef == k && children[k] == ChainDelta(gs[i].delta);
      var j :| 0 <= j < |gs| && gs[j].delta.candidateRef == l && children[l] == ChainDelta(gs[j].delta);
    }
  }
}
