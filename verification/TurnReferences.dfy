// What the records and the trace of a finished turn refer to, and nothing else.

module TurnReferences {
  import opened Records
  import opened Understanding
  import opened Commands
  import opened RunStore
  import opened Evidence
  import opened Turns
  import opened TurnEvents
  import opened TurnTrace
  import Supersedes

  // What is loaded for the records of a turn: its one Message and its one toolset artifact.
  function Loaded(t: Turn, g: RunGraph): Evidence {
    Evidence(g, Only(t.user.messageId, t.user), {t.manifest.toolsetHash})
  }

  // The references of one event stay within those of the turn.
  predicate Within(t: Turn, e: TraceEvent) {
    && (e.messageRef.Some? ==> e.messageRef.value == t.user.messageId)
    && (e.toolsetHash.Some? ==> e.toolsetHash.value == t.manifest.toolsetHash)
    && (e.inputBindingRef.Some? ==> IsBinding(t, e.inputBindingRef.value))
    && (forall b :: b in e.bindingRefs ==> IsBinding(t, b))
    && (e.observationRef.Some? ==> IsObservation(t, e.observationRef.value))
  }

  predicate IsBinding(t: Turn, b: Id) { t.work.Some? && t.work.value.binding.bindingId == b }

  predicate IsObservation(t: Turn, o: Id) { t.work.Some? && IsSeen(t.work.value, o) }

  predicate IsSeen(w: Work, o: Id) {
    w.tool.Some? && w.tool.value.seen.Some? && w.tool.value.seen.value.observation.observationId == o
  }

  predicate AllWithin(t: Turn, es: seq<TraceEvent>) { forall e :: e in es ==> Within(t, e) }

  lemma OpeningWithin(t: Turn)
    requires OpeningOk(t)
    ensures AllWithin(t, t.opening)
  {
  }

  lemma EndsWithin(t: Turn)
    requires EndOk(t)
    ensures Within(t, t.rendered) && Within(t, t.stop)
  {
    hide TerminalRow, Run.Valid;
  }

  lemma DecidedWithin(t: Turn, w: Work)
    requires t.work == Some(w) && DecidedOk(t, w) && GateOk(t, w)
    requires w.record.messageRef == t.user.messageId
    ensures AllWithin(t, w.decided) && Within(t, w.gateEvent)
  {
    hide GateDecision.Valid;
  }

  lemma MovesWithin(t: Turn, w: Work)
    requires MovesOk(t, w)
    ensures (w.hook.Some? ==> Within(t, w.hook.value.1)) && Within(t, w.endEvent)
  {
    hide StepOk;
  }

  lemma ToolWithin(t: Turn, w: Work, x: Tool)
    requires t.work == Some(w) && w.tool == Some(x) && ToolOk(t, w, x)
    ensures AllWithin(t, [x.created, x.started, x.ended, x.normalized])
    ensures AllWithin(t, SeenTrace(x))
  {
  }

  lemma TraceWithin(t: Turn, w: Work)
    requires t.work == Some(w) && WorkOk(t, w) && OpeningOk(t) && EndOk(t)
    ensures AllWithin(t, t.Trace())
  {
    hide OpeningOk, EndOk, DecidedOk, MovesOk, GateOk, ToolOk, Creation, CreateGraphCommand.Valid, Turn.Trace, Within,
      Work.ToolTrace, SeenTrace;
    CreationFacts(t, w);
    TraceParts(t, w);
    OpeningWithin(t);
    EndsWithin(t);
    DecidedWithin(t, w);
    MovesWithin(t, w);
    if w.tool.Some? {
      ToolWithin(t, w, w.tool.value);
      ToolParts(w, w.tool.value);
    } else {
      NoToolTrace(w);
    }
  }

  lemma NoToolTrace(w: Work)
    requires w.tool.None?
    ensures w.ToolTrace() == []
  {
  }

  // ----- Records that supersede nothing -----

  lemma {:induction false} NothingFollows(chains: Supersedes.Chains, a: Id, k: nat)
    requires forall n :: n in chains ==> chains[n].None?
    ensures Supersedes.Follow(chains, a, k) == if k == 0 then Some(a) else None
  {
    if k > 0 { NothingFollows(chains, a, k - 1); }
  }

  lemma FlatFamily(chains: Supersedes.Chains, references: set<Id>)
    requires (forall n :: n in chains ==> chains[n].None?) && references == chains.Keys
    ensures ExactFamily(chains, references)
  {
    forall n ensures Supersedes.Reached(chains, references, n) <==> n in references {
      FlatReach(chains, references, n);
    }
    forall n | n in chains ensures !Supersedes.OnCycle(chains, n) {
      NothingFollows(chains, n, 1);
      Supersedes.EndingIsAcyclic(chains, n);
    }
    hide Supersedes.Reached, Supersedes.OnCycle, Supersedes.Follow;
  }

  lemma FlatReach(chains: Supersedes.Chains, references: set<Id>, n: Id)
    requires forall m :: m in chains ==> chains[m].None?
    ensures Supersedes.Reached(chains, references, n) <==> n in references
  {
    if n in references { assert Supersedes.Follow(chains, n, 0) == Some(n); }
    forall a: Id, k: nat | a in references && Supersedes.Follow(chains, a, k) == Some(n) ensures n in references {
      NothingFollows(chains, a, k);
    }
  }

  // ----- The four families -----

  // One message is all there is.
  lemma InputSources(t: Turn, w: Work)
    requires Creation(t, w).Valid()
    ensures UnderstandingMessages(Some(w.record)) == {t.user.messageId}
    ensures w.binding.sourceRefs == [t.user.messageId]
  {
    CreationFacts(t, w);
    var r := w.record;
    assert UnderstandingMessages(Some(r)) <= r.MessageRefs();
    hide UnderstandingRecord.Valid, AcceptedDelta.Valid, CreateGraphCommand.RootsClose, CreateGraphCommand.LinksClose,
      CreateGraphCommand.OneTimestamp, CreateGraphCommand.CleanTaskAndUnit;
    var c := r.candidates[0];
    assert c in r.candidates && c.inputs[0] in c.inputs;
    assert c.inputs[0].sourceRef in r.MessageRefs();
  }

  // Every reference is to one Message, and some manifest makes it.
  lemma OneMessage(g: RunGraph, m: Id)
    requires UnderstandingMessages(g.understanding) <= {m} && TraceMessages(g.trace) <= {m}
    requires forall d :: d in g.deltas ==> g.deltas[d].messageRef == m
    requires forall u :: u in g.units ==> g.units[u].goalSourceRefs == [m]
    requires forall b :: b in g.bindings ==> g.bindings[b].sourceRefs == [m]
    requires g.manifests != map[] && forall k :: k in g.manifests ==> g.manifests[k].messageRefs == [m]
    ensures ReferencedMessages(g) == {m}
  {
    hide UnderstandingMessages, TraceMessages;
    var k :| k in g.manifests;
    assert m in g.manifests[k].messageRefs;
  }

  lemma MessagesOfWork(t: Turn, w: Work, g: RunGraph)
    requires t.work == Some(w) && g == t.Graph() && WorkOk(t, w) && OpeningOk(t) && EndOk(t)
    ensures ReferencedMessages(g) == {t.user.messageId}
  {
    hide OpeningOk, EndOk, WorkOk, Turn.Trace, Turn.Graph, Turn.Manifests, Turn.Observations, Work.Transitions, AllWithin,
      UnderstandingMessages, TraceMessages, ReferencedMessages;
    WorkRoots(t, w);
    GraphFields(t, w, g);
    ManifestMessages(t, w);
    TraceWithin(t, w);
    MessagesWithin(t, g.trace);
    OneMessage(g, t.user.messageId);
  }

  // What the records of the turn themselves refer to.
  lemma WorkRoots(t: Turn, w: Work)
    requires WorkOk(t, w)
    ensures UnderstandingMessages(Some(w.record)) == {t.user.messageId} && w.binding.sourceRefs == [t.user.messageId]
    ensures w.delta.messageRef == t.user.messageId && w.end.unit.goalSourceRefs == [t.user.messageId]
    ensures w.delta.bindingRefs == w.end.unit.bindingRefs == [w.binding.bindingId]
  {
    hide DecidedOk, MovesOk, GateOk, ToolOk, Creation, CreateGraphCommand.Valid, UnderstandingRecord.Valid,
      UnderstandingRecord.MessageRefs, UnderstandingMessages, Work.Transitions;
    CreationFacts(t, w);
    MoveFacts(t, w);
    InputSources(t, w);
  }

  lemma ManifestMessages(t: Turn, w: Work)
    requires WorkOk(t, w) && OpeningOk(t)
    ensures forall k :: k in t.Manifests(w) ==> t.Manifests(w)[k].messageRefs == [t.user.messageId]
    ensures forall k :: k in t.Manifests(w) ==> t.Manifests(w)[k].toolsetHash == t.manifest.toolsetHash
    ensures t.Manifests(w) != map[]
  {
    hide DecidedOk, MovesOk, GateOk, Creation, CreateGraphCommand.Valid;
    if w.tool.Some? { ToolSeen(t, w, w.tool.value); }
    hide ToolOk;
    assert t.manifest.manifestId in t.Manifests(w);
  }

  lemma MessagesWithin(t: Turn, trace: seq<TraceEvent>)
    requires AllWithin(t, trace)
    ensures TraceMessages(trace) <= {t.user.messageId}
  {
  }

  lemma OneBinding(g: RunGraph, b: Id)
    requires TraceBindings(g.trace) <= {b}
    requires g.deltas != map[] && forall d :: d in g.deltas ==> g.deltas[d].bindingRefs == [b]
    requires forall u :: u in g.units ==> g.units[u].bindingRefs == [b]
    requires forall k :: k in g.gates ==> g.gates[k].bindingRefs == [b]
    requires forall c :: c in g.calls ==> g.calls[c].bindingRefs == [b]
    ensures ReferencedBindings(g) == {b}
  {
    hide TraceBindings;
    var d :| d in g.deltas;
    assert b in g.deltas[d].bindingRefs;
  }

  lemma BindingsOfWork(t: Turn, w: Work, g: RunGraph)
    requires t.work == Some(w) && g == t.Graph() && WorkOk(t, w) && OpeningOk(t) && EndOk(t)
    ensures ReferencedBindings(g) == {w.binding.bindingId}
  {
    hide OpeningOk, EndOk, WorkOk, Turn.Trace, Turn.Graph, Turn.Manifests, Turn.Observations, Work.Transitions, AllWithin,
      TraceBindings, ReferencedBindings;
    WorkRoots(t, w);
    GraphFields(t, w, g);
    CallBindings(t, w);
    GateBindings(t, w);
    TraceWithin(t, w);
    BindingsWithin(t, w, g.trace);
    assert w.delta.deltaId in g.deltas;
    OneBinding(g, w.binding.bindingId);
  }

  lemma GateBindings(t: Turn, w: Work)
    requires WorkOk(t, w)
    ensures w.gate.bindingRefs == [w.binding.bindingId]
  {
    hide DecidedOk, MovesOk, ToolOk, Creation, CreateGraphCommand.Valid, GateDecision.Valid;
  }

  lemma CallBindings(t: Turn, w: Work)
    requires WorkOk(t, w)
    ensures w.tool.Some? ==> w.tool.value.call.bindingRefs == [w.binding.bindingId]
  {
    hide DecidedOk, MovesOk, GateOk, Creation, CreateGraphCommand.Valid, SeenOk;
  }

  lemma BindingsWithin(t: Turn, w: Work, trace: seq<TraceEvent>)
    requires t.work == Some(w) && AllWithin(t, trace)
    ensures TraceBindings(trace) <= {w.binding.bindingId}
  {
  }

  lemma ExactlyObserved(g: RunGraph, u: Id, seen: set<Id>)
    requires TraceObservations(g.trace) <= seen && g.units.Keys == {u}
    requires forall o :: o in g.units[u].observationRefs <==> o in seen
    requires forall k, o :: k in g.manifests && o in g.manifests[k].observationRefs ==> o.0 in seen
    ensures ReferencedObservations(g) == seen
  {
    hide TraceObservations;
    assert u in g.units;
  }

  lemma SeenStands(t: Turn, w: Work)
    requires WorkOk(t, w)
    ensures forall o :: o in t.Observations(w) <==> IsSeen(w, o)
    ensures forall o :: o in t.Observations(w) ==> t.Observations(w)[o].supersedes.None?
  {
    hide DecidedOk, MovesOk, GateOk, Creation, CreateGraphCommand.Valid, CalledWith;
    if w.tool.Some? { ToolSeen(t, w, w.tool.value); }
  }

  lemma ObservationsOfWork(t: Turn, w: Work, g: RunGraph)
    requires t.work == Some(w) && g == t.Graph() && WorkOk(t, w) && OpeningOk(t) && EndOk(t)
    ensures ReferencedObservations(g) == g.observations.Keys
    ensures forall o :: o in g.observations ==> g.observations[o].supersedes.None?
  {
    hide OpeningOk, EndOk, WorkOk, Turn.Trace, Turn.Graph, Turn.Manifests, Turn.Observations, Work.Transitions, AllWithin,
      TraceObservations, ReferencedObservations, IsSeen;
    GraphFields(t, w, g);
    UnitObservations(t, w);
    ManifestObservations(t, w);
    SeenStands(t, w);
    TraceWithin(t, w);
    ObservationsWithin(t, w, g.trace);
    ExactlyObserved(g, w.unit.unitId, g.observations.Keys);
  }

  lemma UnitObservations(t: Turn, w: Work)
    requires WorkOk(t, w)
    ensures forall o :: o in w.end.unit.observationRefs <==> IsSeen(w, o)
  {
    hide DecidedOk, GateOk, ToolOk, Creation, CreateGraphCommand.Valid, StepOk, UnitChangedEvent;
  }

  lemma ManifestObservations(t: Turn, w: Work)
    requires WorkOk(t, w) && OpeningOk(t)
    ensures forall k, o :: k in t.Manifests(w) && o in t.Manifests(w)[k].observationRefs ==> IsSeen(w, o.0)
  {
    hide DecidedOk, MovesOk, GateOk, Creation, CreateGraphCommand.Valid;
    if w.tool.Some? { ToolSeen(t, w, w.tool.value); }
    hide ToolOk;
  }

  lemma ObservationsWithin(t: Turn, w: Work, trace: seq<TraceEvent>)
    requires t.work == Some(w) && AllWithin(t, trace)
    ensures forall o :: o in TraceObservations(trace) ==> IsSeen(w, o)
  {
  }

  lemma ArtifactsOfTurn(t: Turn, g: RunGraph)
    requires AllWithin(t, g.trace) && g.manifests != map[]
    requires forall k :: k in g.manifests ==> g.manifests[k].toolsetHash == t.manifest.toolsetHash
    ensures ReferencedArtifacts(g) == {t.manifest.toolsetHash}
  {
    var k :| k in g.manifests;
    assert g.manifests[k].toolsetHash in ReferencedArtifacts(g);
  }

  lemma FamiliesOfWork(t: Turn, w: Work, g: RunGraph)
    requires t.work == Some(w) && g == t.Graph() && WorkOk(t, w) && OpeningOk(t) && EndOk(t)
    ensures ExactFamily(BindingChains(g.bindings), ReferencedBindings(g))
    ensures ExactFamily(ObservationChains(g.observations), ReferencedObservations(g))
  {
    hide OpeningOk, EndOk, WorkOk, Turn.Graph, ReferencedBindings, ReferencedObservations, ExactFamily, Turn.Observations,
      Turn.Manifests, Turn.Trace, Work.Transitions;
    BindingsOfWork(t, w, g);
    ObservationsOfWork(t, w, g);
    GraphFields(t, w, g);
    BindingFlat(t, w);
    FlatFamily(BindingChains(g.bindings), ReferencedBindings(g));
    FlatFamily(ObservationChains(g.observations), ReferencedObservations(g));
  }

  lemma ReferencesOfWork(t: Turn, w: Work, g: RunGraph)
    requires t.work == Some(w) && g == t.Graph() && WorkOk(t, w) && OpeningOk(t) && EndOk(t)
    ensures ReferencesExact(Loaded(t, g))
  {
    hide OpeningOk, EndOk, WorkOk, Turn.Trace, Turn.Graph, Turn.Manifests, Turn.Observations, Work.Transitions,
      ReferencedMessages, ReferencedBindings, ReferencedObservations, ReferencedArtifacts, ExactFamily, Within;
    MessagesOfWork(t, w, g);
    FamiliesOfWork(t, w, g);
    ManifestMessages(t, w);
    TraceWithin(t, w);
    GraphFields(t, w, g);
    ArtifactsOfTurn(t, g);
  }

  lemma BindingFlat(t: Turn, w: Work)
    requires WorkOk(t, w)
    ensures w.binding.supersedes.None?
  {
    hide DecidedOk, MovesOk, GateOk, ToolOk;
    CreationFacts(t, w);
  }
}
