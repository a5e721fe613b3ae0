// The records of a finished turn agree with each other.

module TurnRecords {
  import opened Records
  import opened Understanding
  import opened Commands
  import opened OrderId
  import opened VersionInForce
  import opened Evidence
  import opened Turns
  import opened TurnEvents
  import DeltaChains

  // ----- One candidate, one accepted child -----

  function Child(w: Work): map<Id, AcceptedDelta> { map[w.delta.candidateRef := w.delta] }

  lemma OneCandidate(t: Turn, w: Work)
    requires Creation(t, w).Valid()
    ensures CandidateIds(w.record.candidates) == [w.delta.candidateRef]
    ensures w.record.decisions == [CandidateDecision(w.delta.candidateRef, true, None)]
  {
    hide CreateGraphCommand.RootsClose, CreateGraphCommand.LinksClose, CreateGraphCommand.OneTimestamp;
    assert w.record.decisions[0].Valid();
  }

  lemma ChildrenAre(w: Work, children: map<Id, AcceptedDelta>)
    ensures ByCandidate(map[w.delta.deltaId := w.delta], children) <==> children == Child(w)
  {
    var deltas := map[w.delta.deltaId := w.delta];
    assert Answered(deltas, w.delta.candidateRef) by { assert w.delta.deltaId in deltas; }
    if ByCandidate(deltas, children) {
      assert children.Keys == {w.delta.candidateRef};
      assert w.delta.deltaId in deltas;
    }
  }

  lemma OneChild(w: Work, candidates: seq<Id>)
    requires candidates == [w.delta.candidateRef]
    ensures ChildrenOf(candidates, Child(w), w.delta.taskId) == [w.delta]
    ensures DeltaChains.InOrder(candidates, Links(Child(w))) == [DeltaChains.Delta(w.delta.taskId, w.delta.base, w.delta.result)]
  {
    assert candidates[..0] == [];
    assert ChildrenOf([], Child(w), w.delta.taskId) == [];
    assert DeltaChains.InOrder([], Links(Child(w))) == [];
  }

  lemma OneLinkChain(d: DeltaChains.Delta, versions: map<Id, nat>)
    requires d.base.None? && d.result == 1
    requires d.task in versions ==> 1 <= versions[d.task]
    ensures DeltaChains.EvidenceChains([d], versions)
  {
    forall x: Id ensures DeltaChains.EvidenceOk(DeltaChains.Of([d], x), DeltaChains.VersionOf(versions, x)) {
      assert [d][..0] == [];
      assert DeltaChains.Of([], x) == [];
    }
  }

  // A record with one candidate, accepted as the one child there is.
  lemma SingleUnderstanding(run: Run, messages: map<Id, Message>, r: UnderstandingRecord, d: AcceptedDelta,
                            bindings: map<Id, InputBinding>, tasks: map<Id, Task>, children: map<Id, AcceptedDelta>)
    requires r.runId == run.runId && r.messageRef in messages && r.acceptedRefs == [d.deltaId]
    requires r.decisions == [CandidateDecision(d.candidateRef, true, None)] && ChildCloses(r, d, bindings, tasks)
    requires ByCandidate(map[d.deltaId := d], children)
    requires DeltaChains.EvidenceChains(DeltaChains.InOrder(CandidateIds(r.candidates), Links(children)), Versions(tasks))
    ensures UnderstandingCloses(run, messages, Some(r), map[d.deltaId := d], bindings, tasks)
  {
    hide ChildCloses, ByCandidate, DeltaChains.EvidenceChains, DeltaChains.InOrder, CandidateIds, Links, Versions;
    var deltas := map[d.deltaId := d];
    assert d.deltaId in deltas;
    assert Elements([d.deltaId]) == deltas.Keys;
  }

  lemma UnderstandingOfWork(t: Turn, w: Work, tasks: map<Id, Task>)
    requires w.task.taskId in tasks && 1 <= tasks[w.task.taskId].version && Creation(t, w).Valid()
    ensures UnderstandingCloses(t.terminal, Only(t.user.messageId, t.user), Some(w.record),
                                Only(w.delta.deltaId, w.delta), Only(w.binding.bindingId, w.binding), tasks)
  {
    hide Creation, CreateGraphCommand.Valid, UnderstandingRecord.Valid, AcceptedDelta.Valid, ChildCloses, ByCandidate,
      DeltaChains.EvidenceChains, DeltaChains.InOrder, UnderstandingRecord.MessageRefs, UnderstandingCloses, CandidateIds,
      Links, Child;
    CreationFacts(t, w);
    OneCandidate(t, w);
    ChildCloseFacts(t, w, tasks);
    ChildrenAre(w, Child(w));
    OneChild(w, CandidateIds(w.record.candidates));
    OneLinkChain(DeltaChains.Delta(w.delta.taskId, w.delta.base, w.delta.result), Versions(tasks));
    SingleUnderstanding(t.terminal, map[t.user.messageId := t.user], w.record, w.delta,
                        map[w.binding.bindingId := w.binding], tasks, Child(w));
  }

  // What the creation command says of the one candidate and its input.
  lemma CandidateFacts(t: Turn, w: Work)
    requires Creation(t, w).Valid()
    ensures |w.record.candidates| == 1
    ensures var c := w.record.candidates[0];
            && c.candidateId == w.delta.candidateRef && c.goalPatch == w.delta.goalText && |c.inputs| == 1
            && Normalize(c.inputs[0].value) == Some(w.binding.orderId) && w.binding.sourceRefs == [c.inputs[0].sourceRef]
  {
    hide CreateGraphCommand.RootsClose, CreateGraphCommand.LinksClose, CreateGraphCommand.OneTimestamp,
      CreateGraphCommand.CleanTaskAndUnit, UnderstandingRecord.Valid, AcceptedDelta.Valid;
  }

  lemma ChildCloseFacts(t: Turn, w: Work, tasks: map<Id, Task>)
    requires w.task.taskId in tasks && Creation(t, w).Valid()
    ensures ChildCloses(w.record, w.delta, map[w.binding.bindingId := w.binding], tasks)
  {
    hide Creation, CreateGraphCommand.Valid, UnderstandingRecord.Valid, AcceptedDelta.Valid, UnderstandingRecord.MessageRefs,
      CandidateIds, Normalize;
    CreationFacts(t, w);
    OneCandidate(t, w);
    CandidateFacts(t, w);
    var c := w.record.candidates[0];
    assert c in w.record.candidates && w.record.decisions[0] in w.record.decisions;
    assert w.delta.bindingRefs[|w.delta.bindingRefs| - 1] == w.binding.bindingId;
  }

  // ----- Task, unit, links -----

  lemma SingleTask(conversation: Conversation, run: Run, u: Option<UnderstandingRecord>, d: AcceptedDelta, task: Task,
                   link: RunTaskLink, convLink: ConversationTaskLink)
    requires d.taskId == task.taskId && task.owner == conversation.owner && LinkCloses(run, task, link)
    requires convLink.taskId == task.taskId && convLink.conversationId == conversation.conversationId
    requires FirstChildHasBase(u, map[d.deltaId := d], task.taskId, link.base)
    ensures TasksClose(conversation, run, u, Only(d.deltaId, d), Only(task.taskId, task), Only(task.taskId, link),
                       Only(task.taskId, convLink))
  {
    hide FirstChildHasBase, LinkCloses;
    var deltas: map<Id, AcceptedDelta> := map[d.deltaId := d];
    assert d.deltaId in deltas;
  }

  lemma TasksOfWork(t: Turn, w: Work)
    requires Creation(t, w).Valid() && MovesOk(t, w) && EndOk(t)
    ensures TasksClose(t.conversation, t.terminal, Some(w.record), Only(w.delta.deltaId, w.delta),
                       Only(w.end.task.taskId, w.end.task), Only(w.end.task.taskId, w.link),
                       Only(w.end.task.taskId, w.convLink))
    ensures w.end.task.taskId == w.task.taskId
  {
    hide Creation, CreateGraphCommand.Valid, UnderstandingRecord.MessageRefs, UnderstandingRecord.Valid, EndOk, MovesOk,
      LinkCloses, FirstChildHasBase, TasksClose, Work.Transitions;
    CreationFacts(t, w);
    MoveFacts(t, w);
    LinkOfWork(t, w);
    FirstOfWork(t, w);
    SingleTask(t.conversation, t.terminal, Some(w.record), w.delta, w.end.task, w.link, w.convLink);
  }

  lemma LinkOfWork(t: Turn, w: Work)
    requires MovesOk(t, w) && EndOk(t) && w.end.task.taskId == w.task.taskId
    ensures LinkCloses(t.terminal, w.end.task, w.link) && w.link.base.None?
  {
    hide TerminalRow, StepOk;
  }

  lemma FirstOfWork(t: Turn, w: Work)
    requires Creation(t, w).Valid() && w.link.base.None?
    ensures FirstChildHasBase(Some(w.record), map[w.delta.deltaId := w.delta], w.task.taskId, w.link.base)
  {
    hide Creation, CreateGraphCommand.Valid, UnderstandingRecord.MessageRefs, UnderstandingRecord.Valid, ByCandidate, Child,
      CandidateIds, ChildrenOf, DeltaChains.InOrder, Links;
    CreationFacts(t, w);
    OneCandidate(t, w);
    OneChild(w, CandidateIds(w.record.candidates));
    var deltas := map[w.delta.deltaId := w.delta];
    forall children | ByCandidate(deltas, children) ensures children == Child(w) { ChildrenAre(w, children); }
  }

  lemma LatestOfWork(t: Turn, w: Work)
    requires Creation(t, w).Valid() && MovesOk(t, w)
    ensures LatestChildAgrees(Some(w.record), map[w.delta.deltaId := w.delta], w.end.unit)
  {
    hide Creation, CreateGraphCommand.Valid, UnderstandingRecord.MessageRefs, UnderstandingRecord.Valid, ByCandidate, Child,
      CandidateIds, ChildrenOf, DeltaChains.InOrder, Links, MovesOk, Work.Transitions;
    CreationFacts(t, w);
    MoveFacts(t, w);
    OneCandidate(t, w);
    OneChild(w, CandidateIds(w.record.candidates));
    var deltas := map[w.delta.deltaId := w.delta];
    forall children | ByCandidate(deltas, children) ensures children == Child(w) { ChildrenAre(w, children); }
  }

  lemma SingleUnit(u: Option<UnderstandingRecord>, d: AcceptedDelta, task: Task, unit: RequestUnit)
    requires unit.taskId == task.taskId && UnitCloses(map[task.taskId := task], unit)
    requires LatestChildAgrees(u, map[d.deltaId := d], unit)
    ensures UnitsClose(u, Only(d.deltaId, d), Only(task.taskId, task), Only(unit.unitId, unit))
  {
    hide LatestChildAgrees, UnitCloses;
    var units: map<Id, RequestUnit> := map[unit.unitId := unit];
    assert unit.unitId in units && units[unit.unitId].taskId == task.taskId;
  }

  lemma UnitsOfWork(t: Turn, w: Work)
    requires Creation(t, w).Valid() && MovesOk(t, w)
    ensures UnitsClose(Some(w.record), Only(w.delta.deltaId, w.delta), Only(w.end.task.taskId, w.end.task),
                       Only(w.end.unit.unitId, w.end.unit))
    ensures w.end.task.taskId == w.task.taskId && w.end.unit.unitId == w.unit.unitId
  {
    hide Creation, CreateGraphCommand.Valid, UnderstandingRecord.MessageRefs, UnderstandingRecord.Valid, MovesOk, UnitCloses,
      LatestChildAgrees, UnitsClose, Work.Transitions;
    LatestOfWork(t, w);
    CreationFacts(t, w);
    MoveFacts(t, w);
    UnitOfWork(t, w);
    SingleUnit(Some(w.record), w.delta, w.end.task, w.end.unit);
  }

  lemma UnitOfWork(t: Turn, w: Work)
    requires MovesOk(t, w) && w.end.unit.taskId == w.end.task.taskId
    requires w.end.unit.status == w.end.task.status && w.end.unit.version == w.end.task.version
    requires |w.end.unit.goalSourceRefs| == 1 && |w.end.unit.bindingRefs| == 1
    ensures UnitCloses(map[w.end.task.taskId := w.end.task], w.end.unit)
  {
    hide StepOk;
  }

  // ----- The history of the Task -----

  lemma StepFacts(task: Task, unit: RequestUnit, m: Moved)
    requires StepOk(task, unit, m)
    ensures m.transition.taskId == task.taskId == m.task.taskId && m.transition.unitId == unit.unitId == m.unit.unitId
    ensures m.transition.base == task.version && m.transition.result == task.version + 1 == m.task.version
    ensures m.transition.from == task.status && m.transition.to == m.task.status
    ensures m.transition.changedAt == m.task.updatedAt && task.updatedAt <= m.task.updatedAt
    ensures m.task.createdAt == task.createdAt
  {
  }

  lemma BeforeFacts(t: Turn, w: Work)
    requires MovesOk(t, w)
    ensures StepOk(w.Before().0, w.Before().1, w.end)
    ensures w.hook.Some? ==> StepOk(w.task, w.unit, w.hook.value.0)
  {
    hide StepOk;
  }

  lemma HistoryComplete(t: Turn, w: Work)
    requires Creation(t, w).Valid() && MovesOk(t, w)
    ensures CompleteHistory(w.end.task, w.Transitions())
    ensures forall h :: h in w.Transitions() ==> h.taskId == w.task.taskId && h.unitId == w.unit.unitId
  {
    hide Creation, CreateGraphCommand.Valid, UnderstandingRecord.MessageRefs, UnderstandingRecord.Valid, StepOk, MovesOk;
    CreationFacts(t, w);
    BeforeFacts(t, w);
    StepFacts(w.Before().0, w.Before().1, w.end);
    if w.hook.Some? {
      StepFacts(w.task, w.unit, w.hook.value.0);
      assert w.Transitions() == [w.hook.value.0.transition, w.end.transition];
    } else {
      assert w.Transitions() == [w.end.transition];
    }
  }

  lemma SingleHistory(u: Option<UnderstandingRecord>, d: AcceptedDelta, task: Task, unit: RequestUnit, hs: seq<Transition>)
    requires CompleteHistory(task, hs) && unit.taskId == task.taskId && d.base.None? && d.acceptedAt == task.createdAt
    requires forall h :: h in hs ==> h.taskId == task.taskId && h.unitId == unit.unitId
    ensures HistoriesClose(u, Only(d.deltaId, d), Only(task.taskId, task), Only(unit.unitId, unit), Only(task.taskId, hs))
  {
    hide CompleteHistory;
  }

  lemma HistoriesOfWork(t: Turn, w: Work)
    requires Creation(t, w).Valid() && MovesOk(t, w)
    ensures HistoriesClose(Some(w.record), Only(w.delta.deltaId, w.delta), Only(w.end.task.taskId, w.end.task),
                           Only(w.end.unit.unitId, w.end.unit), Only(w.end.task.taskId, w.Transitions()))
    ensures w.end.task.taskId == w.task.taskId && w.end.unit.unitId == w.unit.unitId
  {
    hide Creation, CreateGraphCommand.Valid, UnderstandingRecord.MessageRefs, UnderstandingRecord.Valid, MovesOk,
      CompleteHistory, HistoriesClose, Work.Transitions;
    HistoryComplete(t, w);
    CreationFacts(t, w);
    MoveFacts(t, w);
    SingleHistory(Some(w.record), w.delta, w.end.task, w.end.unit, w.Transitions());
  }
}
