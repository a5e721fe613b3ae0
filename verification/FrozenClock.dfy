// The shortest presented turn, on a clock that reads `at` until the Task moves and
// `moved` from then on.  When both readings are the same the turn is as good as any
// other to every writer, and its evidence still does not close.

module FrozenClock {
  import opened Records
  import opened Understanding
  import opened Commands
  import opened OrderId
  import opened Evidence
  import opened Turns
  import opened TurnReferences
  import opened TurnClosure

  const ORDER := "O-1234"
  const GOAL := "Where is it?"

  const CONVERSATION := Conversation(1, "customer")
  const MANIFEST_ID: Id := 4
  const MODEL_CALL: Id := 5

  function TheUser(at: Time): Message { Message(2, 1, FromUser, "Where is O-1234?", at) }

  function TheManifest(at: Time): ContextManifest {
    ContextManifest(MANIFEST_ID, 3, MODEL_CALL, "v1", "hash", [2], None, [], at)
  }

  function TheRecord(at: Time): UnderstandingRecord {
    UnderstandingRecord(
      20, 3, 2, DurableContext(GOAL, [], [], [2]),
      [DurableCandidate(21, GOAL, [DurableInput(ORDER, 2, 9, 15)])], [CandidateDecision(21, true, None)], [22],
      None, Some(1), Some(23), at)
  }

  function TheDelta(at: Time): AcceptedDelta { AcceptedDelta(22, 21, 2, GOAL, [24], at, 25, None, 1) }

  function TheBinding(at: Time): InputBinding { InputBinding(24, ORDER, [2], at, at, None) }

  function TheTask(at: Time): Task { Task(25, "customer", TaskActive, 1, at, at, None) }

  function TheUnit(at: Time): RequestUnit {
    RequestUnit(26, 25, GOAL, [2], [24], [], [], TaskActive, 1, at, at)
  }

  function TheOpening(at: Time): seq<TraceEvent> {
    [MessageAcceptedEvent(100, at, 3, 2), RunStartedEvent(101, at, 3), UnderstandingStartedEvent(102, at, 3, 2, MODEL_CALL),
     ManifestEvent(103, at, TheManifest(at), "REQUEST_UNDERSTANDING")]
  }

  function TheDecided(at: Time): seq<TraceEvent> {
    [NextMoveEvent(104, at, TheRecord(at), TheManifest(at), "CALL_TOOL", Some("get_order")),
     DeltaValidatedEvent(105, at, TheRecord(at), TheDelta(at)),
     DeltaAcceptedEvent(106, at, TheRecord(at), TheDelta(at), TheUnit(at)),
     BindingEvent(107, at, 3, TheUnit(at), TheBinding(at)), UnitChangedEvent(108, at, 3, TheUnit(at)),
     RevalidatedEvent(109, at, 3, TheUnit(at), MODEL_CALL, "get_order", 1, [24])]
  }

  function TheGate(at: Time): GateDecision {
    GateDecision(27, MODEL_CALL, MANIFEST_ID, "get_order", Some("get_order"),
                 GateChecks(true, true, true, true, true, true, true, true, true), [24], None, Some(1), true, None, at)
  }

  function TheCall(at: Time): ToolCall {
    ToolCall(28, 3, 25, 26, MODEL_CALL, MANIFEST_ID, 27, "get_order", "v1", 1, [24], Read, 1, CallSucceeded, at, Some(at),
             None, None, None, Some(29))
  }

  function TheAttempt(at: Time): Attempt { Attempt(28, 1, at, Some(at), Some(Success), None) }

  function TheObservation(at: Time): Observation { Observation(30, "get_order", "order", "source", at, None) }

  function ThePresentation(at: Time): ContextManifest {
    ContextManifest(31, 3, 32, "v1", "hash", [2], Some((25, 1)), [(30, "source")], at)
  }

  function TheSeen(at: Time): Seen {
    Seen(TheObservation(at), ThePresentation(at), ObservationEvent(115, TheCall(at), TheObservation(at)),
         ManifestEvent(116, at, ThePresentation(at), "PRESENTATION"),
         Some(PlanEvent(117, at, 3, TheUnit(at), ThePresentation(at), 30, 33)))
  }

  function TheTool(at: Time): Tool {
    Tool(TheCall(at), TheAttempt(at), CallCreatedEvent(111, TheCall(at)), CallStartedEvent(112, TheCall(at), TheAttempt(at)),
         CallEndedEvent(113, TheCall(at)), NormalizedEvent(114, TheCall(at), TheAttempt(at)), Some(TheSeen(at)))
  }

  function TheEnd(at: Time, moved: Time): Moved {
    Moved(TheTask(at).(status := TaskCompleted, version := 2, updatedAt := moved, lastOutcomeRef := Some(33)),
          TheUnit(at).(status := TaskCompleted, version := 2, updatedAt := moved, observationRefs := [30]),
          Transition(25, 26, TaskActive, TaskCompleted, 1, 2, 33, moved))
  }

  function TheWork(at: Time, moved: Time): Work {
    Work(TheRecord(at), TheDelta(at), TheBinding(at), TheTask(at), TheUnit(at), ConversationTaskLink(1, 25, at, None),
         RunTaskLink(3, 25, None, Some(2)), TheDecided(at), None, TheGate(at), GateEvent(110, at, 3, TheUnit(at), TheGate(at)),
         Some(TheTool(at)), TheEnd(at, moved), UnitChangedEvent(119, moved, 3, TheUnit(at)))
  }

  function TheTurn(at: Time, moved: Time): Turn {
    hide TheUser, TheManifest, TheOpening, TheWork, TheUnit, RenderedEvent, RunStoppedEvent;
    Turn(CONVERSATION, TheUser(at), TheManifest(at), TheOpening(at), Some(TheWork(at, moved)),
         RenderedEvent(118, at, 3, Some(TheUnit(at)), Some(30), Some(33)),
         Run(3, Some(1), RunCompleted, "default", at, Some(moved), Some(GoalCompleted), None),
         Message(34, 1, FromAssistant, "On its way.", moved), RunStoppedEvent(120, moved, 3, OutcomeCompleted, GoalCompleted))
  }

  // ----- Every writer accepts it -----

  lemma RecordIsValid(at: Time)
    ensures TheRecord(at).Valid() && TheRecord(at).MessageRefs() == {2}
  {
    var r := TheRecord(at);
    assert CandidateIds(r.candidates) == [21] && DecisionRefs(r.decisions) == [21];
    assert r.decisions[..0] == [];
    assert r.candidates[0] in r.candidates && r.candidates[0].inputs[0] in r.candidates[0].inputs;
  }

  function TheCommand(at: Time): CreateGraphCommand {
    CreateGraphCommand(
      "customer", CONVERSATION, [TheUser(at)], Run(3, Some(1), RunRunning, "default", at, None, None, None), TheRecord(at),
      TheDelta(at), TheTask(at), TheUnit(at), TheBinding(at), 26, ConversationTaskLink(1, 25, at, None),
      RunTaskLink(3, 25, None, None))
  }

  lemma ChildCloses(at: Time)
    ensures TheCommand(at).AcceptedChildCloses() && TheCommand(at).OneTimestamp() && TheCommand(at).LinksClose()
  {
    RecordIsValid(at);
    hide UnderstandingRecord.Valid;
  }

  lemma RootsClose(at: Time)
    ensures TheCommand(at).RootsClose()
  {
    RecordIsValid(at);
    hide UnderstandingRecord.MessageRefs, UnderstandingRecord.Valid;
    var c := TheCommand(at);
    assert c.messages[0] in c.messages && c.CurrentMessage(c.messages[0]);
    assert (set m | m in c.messages :: m.messageId) == {2};
  }

  lemma IdsDiffer()
    ensures Distinct<Id>([20, 23, 22, 25, 26, 24])
  {
  }

  lemma GraphIsClean(at: Time)
    ensures TheCommand(at).CleanTaskAndUnit()
  {
    hide Distinct;
    IdsDiffer();
  }

  lemma BindingIsProjected(at: Time)
    ensures TheCommand(at).BindingProjectsCandidate()
  {
    hide Normalize;
    OrderIdIsNormal(ORDER);
  }

  lemma CreationIsValid(at: Time, moved: Time)
    ensures Creation(TheTurn(at, moved), TheWork(at, moved)).Valid()
  {
    hide TheRecord, TheDelta, TheBinding, TheManifest, TheOpening, TheDecided, TheGate, TheTool, TheEnd, GateEvent,
      UnitChangedEvent, RenderedEvent, RunStoppedEvent, CreateGraphCommand.RootsClose,
      CreateGraphCommand.CleanTaskAndUnit, CreateGraphCommand.BindingProjectsCandidate, CreateGraphCommand.LinksClose,
      CreateGraphCommand.OneTimestamp;
    ChildCloses(at);
    RootsClose(at);
    GraphIsClean(at);
    BindingIsProjected(at);
    assert Creation(TheTurn(at, moved), TheWork(at, moved)) == TheCommand(at);
  }

  lemma ToolIsOk(at: Time, moved: Time)
    ensures ToolOk(TheTurn(at, moved), TheWork(at, moved), TheTool(at))
  {
    hide TheRecord, TheDelta, TheEnd, TheOpening, TheDecided, GateEvent, UnitChangedEvent, RenderedEvent, RunStoppedEvent;
  }

  lemma MovesAreOk(at: Time, moved: Time)
    requires at <= moved
    ensures MovesOk(TheTurn(at, moved), TheWork(at, moved))
  {
    hide TheRecord, TheDelta, TheBinding, TheGate, TheOpening, TheUser, TheManifest, TheDecided, GateEvent, RenderedEvent,
      RunStoppedEvent, TheCall, TheAttempt, CallCreatedEvent, CallStartedEvent, CallEndedEvent, NormalizedEvent,
      ObservationEvent, ManifestEvent, PlanEvent;
  }

  lemma EndIsOk(at: Time, moved: Time)
    requires at <= moved
    ensures EndOk(TheTurn(at, moved))
  {
    hide TheRecord, TheDelta, TheBinding, TheGate, TheOpening, TheDecided, GateEvent, TheCall, TheAttempt,
      CallCreatedEvent, CallStartedEvent, CallEndedEvent, NormalizedEvent, ObservationEvent, ManifestEvent, PlanEvent,
      UnitChangedEvent;
  }

  lemma OpeningIsOk(at: Time, moved: Time)
    ensures OpeningOk(TheTurn(at, moved))
  {
    hide TheWork, NextMoveEvent, RenderedEvent, RunStoppedEvent;
  }

  lemma ProposedAt(at: Time)
    ensures var es := TheDecided(at);
            && es[0] == NextMoveEvent(es[0].eventId, es[0].at, TheRecord(at), TheManifest(at), "CALL_TOOL", Some("get_order"))
            && es[1] == DeltaValidatedEvent(es[1].eventId, es[1].at, TheRecord(at), TheDelta(at))
            && es[2] == DeltaAcceptedEvent(es[2].eventId, es[2].at, TheRecord(at), TheDelta(at), TheUnit(at))
  {
    hide TheRecord, TheManifest, TheDelta, TheUnit, TheBinding, BindingEvent, UnitChangedEvent, RevalidatedEvent;
  }

  lemma AcceptedAt(at: Time)
    ensures var es := TheDecided(at);
            && es[3] == BindingEvent(es[3].eventId, es[3].at, 3, TheUnit(at), TheBinding(at))
            && es[4] == UnitChangedEvent(es[4].eventId, es[4].at, 3, TheUnit(at))
            && es[5] == RevalidatedEvent(es[5].eventId, es[5].at, 3, TheUnit(at), MODEL_CALL, "get_order", 1, [24])
  {
    hide TheRecord, TheManifest, TheDelta, TheUnit, TheBinding, NextMoveEvent, DeltaValidatedEvent, DeltaAcceptedEvent;
  }

  lemma DecidedIsOk(at: Time, moved: Time)
    ensures DecidedOk(TheTurn(at, moved), TheWork(at, moved))
  {
    ProposedAt(at);
    AcceptedAt(at);
    hide TheRecord, TheDelta, TheUnit, TheTask, TheTool, TheEnd, TheOpening, TheUser, NextMoveEvent, DeltaValidatedEvent,
      DeltaAcceptedEvent, BindingEvent, UnitChangedEvent, RevalidatedEvent, GateEvent, RenderedEvent, RunStoppedEvent;
  }

  lemma GateIsOk(at: Time, moved: Time)
    ensures GateOk(TheTurn(at, moved), TheWork(at, moved))
  {
    hide TheRecord, TheDelta, TheUnit, TheTask, TheTool, TheEnd, TheOpening, TheUser, TheDecided, UnitChangedEvent,
      RenderedEvent, RunStoppedEvent;
  }

  lemma WorkIsNumbered(at: Time, moved: Time, i: nat)
    ensures |TheWork(at, moved).Trace()| == 14 && (i < 14 ==> TheWork(at, moved).Trace()[i].eventId == 104 + i)
  {
    hide TheRecord, TheManifest, TheUser, TheDelta, TheUnit, TheBinding, TheTask, TheGate, TheCall, TheAttempt,
      TheObservation, ThePresentation, TheEnd;
  }

  // The events are numbered in order.
  lemma TraceIsNumbered(at: Time, moved: Time, i: nat)
    requires i < |TheTurn(at, moved).Trace()|
    ensures TheTurn(at, moved).Trace()[i].eventId == 100 + i
  {
    hide TheRecord, TheManifest, TheUser, TheDelta, TheUnit, TheBinding, TheTask, TheGate, TheTool, TheDecided, TheEnd,
      GateEvent, Work.Trace;
    WorkIsNumbered(at, moved, if 4 <= i then i - 4 else 0);
  }

  lemma TurnIsOk(at: Time, moved: Time)
    requires at <= moved
    ensures TurnOk(TheTurn(at, moved))
  {
    hide OpeningOk, EndOk, DecidedOk, GateOk, MovesOk, ToolOk, Creation, CreateGraphCommand.Valid, Turn.Trace, TheOpening,
      TheUser, TheManifest, TheRecord, TheDelta, TheBinding, TheTask, TheUnit, TheDecided, TheGate, TheTool, TheEnd,
      GateEvent, UnitChangedEvent, RenderedEvent, RunStoppedEvent;
    var t := TheTurn(at, moved);
    OpeningIsOk(at, moved);
    DecidedIsOk(at, moved);
    GateIsOk(at, moved);
    EndIsOk(at, moved);
    CreationIsValid(at, moved);
    MovesAreOk(at, moved);
    ToolIsOk(at, moved);
    forall i, j | 0 <= i < j < |t.Trace()| ensures t.Trace()[i].eventId != t.Trace()[j].eventId {
      TraceIsNumbered(at, moved, i);
      TraceIsNumbered(at, moved, j);
    }
  }

  // ----- And its evidence closes only if the clock moved -----

  lemma ClosesIfTheClockMoves(at: Time, moved: Time)
    requires at <= moved
    ensures TurnOk(TheTurn(at, moved))
    ensures Closed(Loaded(TheTurn(at, moved), TheTurn(at, moved).Graph())) <==> at < moved
  {
    hide TurnOk, Closed, Turn.Graph, Loaded, TheUser, TheManifest, TheOpening, TheRecord, TheDelta, TheBinding, TheTask,
      TheUnit, TheDecided, TheGate, RenderedEvent, RunStoppedEvent, TheCall, TheAttempt, TheObservation;
    TurnIsOk(at, moved);
    FinishedTurnCloses(TheTurn(at, moved));
  }

  // One instant for the whole turn: a finished turn whose evidence is not closed.
  lemma OneInstantDoesNotClose(at: Time)
    ensures TurnOk(TheTurn(at, at)) && !Closed(Loaded(TheTurn(at, at), TheTurn(at, at).Graph()))
    ensures TheSeen(at).manifest.assembledAt == TheEnd(at, at).transition.changedAt == at
    ensures TheWork(at, at).tool == Some(TheTool(at)) && TheTool(at).seen == Some(TheSeen(at))
            && TheWork(at, at).end == TheEnd(at, at) && TheTurn(at, at).work == Some(TheWork(at, at))
  {
    hide TurnOk, Closed, Turn.Graph;
    ClosesIfTheClockMoves(at, at);
  }
}
