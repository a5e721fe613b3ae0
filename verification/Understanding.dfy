// Request understanding: what the model proposes, and the durable record kept of it.

module Understanding {
  import opened Records

  datatype ReferenceSource = CurrentMessage | RecentMessage

  datatype UncertaintyReason = MissingReference | MultiplePlausibleReferences

  datatype Uncertainty = Uncertainty(
    candidateValues: seq<string>, reason: UncertaintyReason, sourceRefs: seq<Id>)
  {
    predicate Valid() {
      && 1 <= |sourceRefs| <= 8 && Distinct(sourceRefs) && Distinct(candidateValues) && "" !in candidateValues
      && (if reason.MissingReference? then candidateValues == [] else 2 <= |candidateValues| <= 8)
    }
  }

  datatype RejectionReason = InputValueInvalid | ReferenceUnresolved | ReferenceAmbiguous | RequiredInputMissing

  // ----- Durable, quote-free projections -----

  datatype DurableReference = DurableReference(
    value: string, source: ReferenceSource, sourceRef: Id, spanStart: nat, spanEnd: nat)

  datatype DurableInput = DurableInput(value: string, sourceRef: Id, spanStart: nat, spanEnd: nat)

  datatype DurableContext = DurableContext(
    text: string, references: seq<DurableReference>, uncertainties: seq<Uncertainty>, sourceRefs: seq<Id>)
  {
    predicate Valid() {
      && text != "" && 1 <= |sourceRefs| <= 8 && Distinct(sourceRefs)
      && (forall r :: r in references ==> r.value != "" && r.spanStart < r.spanEnd && r.sourceRef in sourceRefs)
      && (forall u :: u in uncertainties ==> u.Valid() && forall m :: m in u.sourceRefs ==> m in sourceRefs)
    }
  }

  // A Goal Delta names each input at most once, and there is one input name.
  datatype DurableCandidate = DurableCandidate(candidateId: Id, goalPatch: string, inputs: seq<DurableInput>)
  {
    predicate Valid() {
      goalPatch != "" && |inputs| == 1 && inputs[0].value != "" && inputs[0].spanStart < inputs[0].spanEnd
    }
  }

  datatype CandidateDecision = CandidateDecision(candidateRef: Id, accepted: bool, reason: Option<RejectionReason>)
  {
    predicate Valid() { accepted <==> reason.None? }
  }

  datatype AcceptedDelta = AcceptedDelta(
    deltaId: Id, candidateRef: Id, messageRef: Id, goalText: string, bindingRefs: seq<Id>,
    acceptedAt: Time, taskId: Id, base: Option<nat>, result: nat)
  {
    predicate Valid() {
      goalText != "" && bindingRefs != [] && 1 <= result && (base.Some? ==> 1 <= base.value)
    }
  }

  function Elements(ids: seq<Id>): set<Id> { set x | x in ids }

  function CandidateIds(cs: seq<DurableCandidate>): (r: seq<Id>)
    ensures |r| == |cs|
    ensures forall i :: 0 <= i < |cs| ==> r[i] == cs[i].candidateId
  {
    seq(|cs|, i requires 0 <= i < |cs| => cs[i].candidateId)
  }

  function DecisionRefs(ds: seq<CandidateDecision>): (r: seq<Id>)
    ensures |r| == |ds|
    ensures forall i :: 0 <= i < |ds| ==> r[i] == ds[i].candidateRef
  {
    seq(|ds|, i requires 0 <= i < |ds| => ds[i].candidateRef)
  }

  function AcceptedCount(ds: seq<CandidateDecision>): (n: nat)
    ensures n <= |ds|
  {
    if ds == [] then 0 else AcceptedCount(ds[..|ds| - 1]) + if ds[|ds| - 1].accepted then 1 else 0
  }

  datatype UnderstandingRecord = UnderstandingRecord(
    recordId: Id, runId: Id, messageRef: Id, context: DurableContext, candidates: seq<DurableCandidate>,
    decisions: seq<CandidateDecision>, acceptedRefs: seq<Id>, proposedBase: Option<nat>,
    validatedVersion: Option<nat>, nextMoveRef: Option<Id>, createdAt: Time)
  {
    // Local closure of the record graph.
    predicate Valid() {
      && context.Valid()
      && (forall c :: c in candidates ==> c.Valid())
      && (forall d :: d in decisions ==> d.Valid())
      && Distinct(CandidateIds(candidates))
      && Distinct(DecisionRefs(decisions))
      && Elements(DecisionRefs(decisions)) == Elements(CandidateIds(candidates))
      && Distinct(acceptedRefs)
      && |acceptedRefs| == AcceptedCount(decisions)
      && messageRef in context.sourceRefs
      && (forall i, j :: 0 <= i < |candidates| && 0 <= j < |candidates[i].inputs| ==>
            candidates[i].inputs[j].sourceRef == messageRef)
      && (nextMoveRef.None? ==> proposedBase.None? && validatedVersion.None?)
    }

    // Every Message the record names.
    function MessageRefs(): set<Id> {
      {messageRef} + (set m | m in context.sourceRefs)
      + (set r | r in context.references :: r.sourceRef)
      + (set u, m | u in context.uncertainties && m in u.sourceRefs :: m)
      + (set c, x | c in candidates && x in c.inputs :: x.sourceRef)
    }
  }
}
