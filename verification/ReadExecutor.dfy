// One owner-scoped read, sent only after an applied durable fence.

module ReadExecutor {
  import opened Records
  import opened Commands
  import opened RunStore
  import opened Protocol
  import opened Reachable
  import opened Host
  import opened RuntimePort
  import opened RunClient
  import Gateway
  import Integrity

  // ----- The order service -----

  // What get_order comes back with, as far as the executor tells the cases apart.
  datatype OrderReply =
    | Found(resource: string, version: string)
    | NotFound
    | Unavailable
    | TimesOut
    | OrderRaises(signal: Signal)

  datatype OrderOutcome = FoundOutcome | NotFoundOutcome | SystemFailureOutcome

  const VERSION_PREFIX := "mock-order-source-version.p0.v1:sha256:"

  predicate CanonicalVersion(v: string) {
    && |v| == |VERSION_PREFIX| + 64 && v[..|VERSION_PREFIX|] == VERSION_PREFIX
    && forall i :: |VERSION_PREFIX| <= i < |v| ==> '0' <= v[i] <= '9' || 'a' <= v[i] <= 'f'
  }

  // The prefix and the 64 lower-case hexadecimal digits of a digest.
  lemma CanonicalExactly(v: string)
    ensures CanonicalVersion(v) <==>
              exists digest: string ::
                && v == "mock-order-source-version.p0.v1:sha256:" + digest && |digest| == 64
                && forall i :: 0 <= i < 64 ==> '0' <= digest[i] <= '9' || 'a' <= digest[i] <= 'f'
  {
    var n := |VERSION_PREFIX|;
    if CanonicalVersion(v) { assert v == VERSION_PREFIX + v[n..]; }
    if digest: string :| v == VERSION_PREFIX + digest && |digest| == 64
                         && forall i :: 0 <= i < 64 ==> '0' <= digest[i] <= '9' || 'a' <= digest[i] <= 'f' {
      forall i | n <= i < |v| ensures '0' <= v[i] <= '9' || 'a' <= v[i] <= 'f' { assert v[i] == digest[i - n]; }
    }
  }

  // A found order without a canonical source version counts as a service failure.
  function Canonical(reply: OrderReply): OrderReply {
    if reply.Found? && !CanonicalVersion(reply.version) then Unavailable else reply
  }

  function OutcomeOf(reply: OrderReply): OrderOutcome {
    match Canonical(reply)
    case Found(_, _) => FoundOutcome
    case NotFound => NotFoundOutcome
    case _ => SystemFailureOutcome
  }

  class OrderPort {
    const reply: OrderReply
    // Every query so far.
    var asked: seq<Integrity.OrderQuery>

    constructor (reply: OrderReply)
      ensures this.reply == reply && asked == []
    {
      this.reply, asked := reply, [];
    }

    method GetOrder(query: Integrity.OrderQuery) returns (r: OrderReply)
      modifies this`asked
      ensures asked == old(asked) + [query] && r == reply
    {
      asked := asked + [query];
      r := reply;
    }
  }

  // ----- What the service authorises and what comes of it -----

  datatype Authorized = Authorized(
    owner: string, gateId: Id, tool: string, orderId: string, bindingRefs: seq<Id>, validatedVersion: nat,
    registryRef: string, runId: Id, taskId: Id, unitId: Id, modelCallId: Id, manifestId: Id, registryVersion: string,
    policy: Gateway.ExecutionPolicy, remainingMs: int)
  {
    predicate Sound() {
      && policy.maxAttempts == 1 && policy.interruptBehavior == "MARK_INTERRUPTED" && 0 < remainingMs
      && tool == "get_order" && registryRef == registryVersion
    }
  }

  // The call is for the current version of a Task of the Run and its bindings.
  predicate Fits(g: RunGraph, a: Authorized) {
    && a.runId == g.run.runId && 1 <= a.validatedVersion && a.bindingRefs != []
    && a.taskId in g.tasks && a.validatedVersion == g.tasks[a.taskId].version
    && a.unitId in g.units && g.units[a.unitId].taskId == a.taskId
    && forall b :: b in a.bindingRefs ==> b in g.units[a.unitId].bindingRefs
  }

  datatype Execution = Execution(
    created: ToolCall, terminal: Option<ToolCall>, attempt: Option<Attempt>, outcome: Option<OrderOutcome>,
    observation: Option<Observation>)

  function CreatedCall(a: Authorized, callId: Id, at: Time): ToolCall {
    ToolCall(callId, a.runId, a.taskId, a.unitId, a.modelCallId, a.manifestId, a.gateId, "get_order",
             a.registryVersion, a.validatedVersion, a.bindingRefs, Read, 0, CallCreated, at, None, None, None, None, None)
  }

  function RunningCall(created: ToolCall): ToolCall { created.(status := CallRunning, attemptCount := 1) }

  // The one attempt ended, and the call with it.
  predicate EndedTogether(running: ToolCall, attempt: Attempt, c: ToolCall, x: Attempt) {
    && c == running.(status := c.status, finishedAt := c.finishedAt, failureCode := c.failureCode,
                     timeoutPhase := c.timeoutPhase, interruption := c.interruption, resultRef := c.resultRef)
    && x == attempt.(finishedAt := x.finishedAt, outcome := x.outcome, failureCode := x.failureCode)
    && c.Valid() && x.Valid() && !c.status.Active()
    && x.finishedAt.Some? && x.outcome.Some? && OutcomeFits(c.status, x.outcome.value)
    && c.finishedAt == x.finishedAt && c.failureCode == x.failureCode
  }

  predicate Started(running: ToolCall, attempt: Attempt, now: Time) {
    && running.Valid() && running.status.CallRunning? && running.attemptCount == 1 && running.Clean()
    && running.startedAt <= attempt.startedAt <= now
    && attempt == Attempt(running.callId, 1, attempt.startedAt, None, None, None)
  }

  // The records the execution leaves.
  function Recorded(g: RunGraph, c: ToolCall, x: Attempt, o: Option<Observation>): RunGraph {
    var g' := CallWrites(g, c, [x]);
    if o.Some? then ObserveWrites(g', o.value, c.callId) else g'
  }

  // The call failed with the order service.
  predicate ServiceFailed(x: Execution)
    requires x.terminal.Some? && x.attempt.Some?
  {
    && x.outcome == Some(SystemFailureOutcome) && x.observation.None?
    && x.terminal.value.status.CallFailed? && x.terminal.value.failureCode == Some("ORDER_SERVICE_UNAVAILABLE")
    && x.attempt.value.outcome == Some(SystemFailure)
  }

  // The outcome, the terminal status, the failure code and the Observation the reply calls for.
  predicate Answers(reply: OrderReply, x: Execution) {
    && x.terminal.Some? && x.attempt.Some?
    && match reply
       case Found(resource, version) =>
         if !CanonicalVersion(version) then ServiceFailed(x)
         else
           && x.outcome == Some(FoundOutcome) && x.observation.Some?
           && x.terminal.value.status.CallSucceeded? && x.terminal.value.failureCode.None? && x.terminal.value.resultRef.Some?
           && x.attempt.value.outcome == Some(Success)
           && x.observation.value == Observation(x.observation.value.observationId, "get_order", resource, version,
                                                 x.observation.value.recordedAt, None)
           && x.terminal.value.finishedAt == Some(x.observation.value.recordedAt)
       case NotFound =>
         && x.outcome == Some(NotFoundOutcome) && x.observation.None?
         && x.terminal.value.status.CallFailed? && x.terminal.value.failureCode == Some("NOT_FOUND_OR_NOT_ACCESSIBLE")
         && x.attempt.value.outcome == Some(BusinessFailure)
       case TimesOut =>
         && x.outcome == Some(SystemFailureOutcome) && x.observation.None?
         && x.terminal.value.status.CallTimedOut? && x.terminal.value.failureCode == Some("TOOL_CALL_TIMEOUT")
         && x.terminal.value.timeoutPhase == Some(AfterDispatch) && x.attempt.value.outcome == Some(Timeout)
       case Unavailable => ServiceFailed(x)
       case OrderRaises(_) => false
  }

  datatype End = End(
    status: CallStatus, outcome: ToolOutcome, failure: Option<string>, resultRef: Option<Id>,
    timeoutPhase: Option<TimeoutPhase>, interruption: Option<string>)
  {
    predicate Valid() {
      && !status.Active() && OutcomeFits(status, outcome)
      && (status.CallSucceeded? ==> failure.None?)
      && (status.CallTimedOut? <==> timeoutPhase.Some?) && (status.CallInterrupted? <==> interruption.Some?)
    }
  }

  function EndOfCall(running: ToolCall, end: End, at: Time): ToolCall {
    running.(status := end.status, finishedAt := Some(at), failureCode := end.failure, timeoutPhase := end.timeoutPhase,
             interruption := end.interruption, resultRef := end.resultRef)
  }

  function EndOfAttempt(attempt: Attempt, end: End, at: Time): Attempt {
    attempt.(finishedAt := Some(at), outcome := Some(end.outcome), failureCode := end.failure)
  }

  // The call is still on its way as far as the store can tell.
  predicate LeftOpen(before: Cursor, after: Cursor) { after == before.(open := after.open) && after.open != {} }

  // Only an order service that breaks off with an exception leaves the call open.
  predicate CallLeft(before: Cursor, after: Cursor, asked: bool, reply: OrderReply) {
    if asked && reply == OrderRaises(Exception) then LeftOpen(before, after) else after == before
  }

  // The call and its attempt ended INTERRUPTED at one time, and the trace says so.
  ghost predicate InterruptedOnce(g: RunGraph, g': RunGraph, running: ToolCall, attempt: Attempt) {
    exists at: Time, eventId: Id ::
      g' == AppendWrites(
              CallWrites(g,
                         running.(status := CallInterrupted, finishedAt := Some(at), failureCode := Some("TOOL_CALL_CANCELLED"),
                                  interruption := Some("TOOL_CALL_CANCELLED"), resultRef := None, timeoutPhase := None),
                         [attempt.(finishedAt := Some(at), outcome := Some(Interrupted),
                                   failureCode := Some("TOOL_CALL_CANCELLED"))]),
              InterruptedEvent(eventId, at, running))
  }

  function InterruptedEvent(eventId: Id, at: Time, c: ToolCall): TraceEvent {
    PlainEvent(eventId, ToolCallInterrupted, at, c.runId)
      .(taskId := Some(c.taskId), unitId := Some(c.unitId), callId := Some(c.callId), callStatus := Some(CallInterrupted))
  }

  class ReadToolExecutor {
    const port: OrderPort
    const host: Host

    constructor (port: OrderPort, host: Host)
      ensures this.port == port && this.host == host
    {
      this.port, this.host := port, host;
    }

    method FinalizeRunningAttempt(client: RunClient, running: ToolCall, attempt: Attempt, end: End)
      returns (r: Awaited<(ToolCall, Attempt)>)
      requires hide *; client.Valid() && client.host == host && end.Valid() && Started(running, attempt, host.now)
      requires Unfinished(client.g)
      modifies client`g, client`cursor, client.store, host
      ensures client.Valid() && old(client.store.past) <= client.store.past
      ensures old(host.now) <= host.now && old(host.nextId) == host.nextId
      ensures r.Answer? ==>
                var (c, x) := r.value;
                && EndedTogether(running, attempt, c, x)
                && c == EndOfCall(running, end, host.now) && x == EndOfAttempt(attempt, end, host.now)
                && (client.store.AlwaysCalm() ==> client.cursor == old(client.cursor).Closed(running.callId))
                && client.g == CallWrites(old(client.g), c, [x]) && client.Current()
                && c.callId in client.g.calls && client.g.calls[c.callId] == c
                && client.g.conversation == old(client.g).conversation && Unfinished(client.g)
      ensures r.Raised? ==> client.Current() && Unfinished(client.g) && client.cursor == old(client.cursor)
      ensures client.store.AlwaysCalm() && FinishWould(old(client.g), running, attempt) ==> r.Answer?
      ensures old(client.Calm()) && FinishWould(old(client.g), running, attempt) ==> client.Calm()
    {
      hide RuntimeStore.AlwaysCalm, RuntimeStore.Valid, Held, Claimed, Started, EndedTogether, Lands, ApplyWrite, Sendable,
        CallWrites, FinalizeCallCommand.Valid, IdsBelow, FinishWould, End.Valid, CursorOf;
      var finishedAt := host.Clock();
      var terminal, finalized := EndOfCall(running, end, finishedAt), EndOfAttempt(attempt, end, finishedAt);
      var w := FinishCall(FinalizeCallCommand(running, attempt, terminal, finalized));
      EndIsFinal(client.g, running, attempt, end, old(host.now), finishedAt);
      FinishIsSendable(client.g, w.finish);
      StaysUnfinished(client.g, w);
      CallStaysBelow(client.g, running, attempt, terminal, finalized, host.nextId);
      CallMovesCursor(client.g, terminal, [finalized]);
      var applied :- client.Move(w);
      if !applied { return Raised(Exception); }
      return Answer((terminal, finalized));
    }

    // How a call ends that found nothing.
    function EmptyEnd(reply: OrderReply): End {
      match reply
      case TimesOut => End(CallTimedOut, Timeout, Some("TOOL_CALL_TIMEOUT"), None, Some(AfterDispatch), None)
      case NotFound => End(CallFailed, BusinessFailure, Some("NOT_FOUND_OR_NOT_ACCESSIBLE"), None, None, None)
      case _ => End(CallFailed, SystemFailure, Some("ORDER_SERVICE_UNAVAILABLE"), None, None, None)
    }

    method ConcludeEmpty(client: RunClient, owner: string, created: ToolCall, running: ToolCall, attempt: Attempt,
                         reply: OrderReply) returns (r: Awaited<Execution>)
      requires hide *; client.Valid() && client.host == host && Started(running, attempt, host.now) && Unfinished(client.g)
      requires running.tool == "get_order" && running.effect.Read? && owner == client.g.conversation.owner
      modifies client`g, client`cursor, client.store, host
      ensures client.Valid() && old(client.store.past) <= client.store.past
      ensures old(host.now) <= host.now && old(host.nextId) <= host.nextId
      ensures r.Answer? ==>
                && r.value.created == created && Answers(reply, r.value)
                && r.value.terminal.Some? && r.value.attempt.Some?
                && EndedTogether(running, attempt, r.value.terminal.value, r.value.attempt.value)
                && client.g == Recorded(old(client.g), r.value.terminal.value, r.value.attempt.value, r.value.observation)
      ensures r.Raised? ==> client.Current() && Unfinished(client.g)
      requires !reply.OrderRaises? && !Canonical(reply).Found?
      ensures old(client.Calm()) && FinishWould(old(client.g), running, attempt) ==> r.Answer? && client.Calm()
      ensures client.store.AlwaysCalm() && FinishWould(old(client.g), running, attempt) ==>
                client.cursor == old(client.cursor).Closed(running.callId)
    {
      hide RuntimeStore.AlwaysCalm, Claimed, Started, EndedTogether, FinishWould, IdsBelow, CanonicalVersion,
        History, Allowed;
      var ended :- FinalizeRunningAttempt(client, running, attempt, EmptyEnd(Canonical(reply)));
      return Answer(Execution(created, Some(ended.0), Some(ended.1), Some(OutcomeOf(reply)), None));
    }

    method ConcludeFound(client: RunClient, owner: string, created: ToolCall, running: ToolCall, attempt: Attempt,
                         reply: OrderReply) returns (r: Awaited<Execution>)
      requires hide *; client.Valid() && client.host == host && Started(running, attempt, host.now) && Unfinished(client.g)
      requires running.tool == "get_order" && running.effect.Read? && owner == client.g.conversation.owner
      modifies client`g, client`cursor, client.store, host
      ensures client.Valid() && old(client.store.past) <= client.store.past
      ensures old(host.now) <= host.now && old(host.nextId) <= host.nextId
      ensures r.Answer? ==>
                && r.value.created == created && Answers(reply, r.value)
                && r.value.terminal.Some? && r.value.attempt.Some?
                && EndedTogether(running, attempt, r.value.terminal.value, r.value.attempt.value)
                && client.g == Recorded(old(client.g), r.value.terminal.value, r.value.attempt.value, r.value.observation)
      ensures r.Raised? ==> client.Current() && Unfinished(client.g)
      requires Canonical(reply).Found?
      ensures old(client.Calm()) && FinishWould(old(client.g), running, attempt) ==> r.Answer? && client.Calm()
      ensures client.store.AlwaysCalm() && FinishWould(old(client.g), running, attempt) ==>
                client.cursor == old(client.cursor).Closed(running.callId)
    {
      hide RuntimeStore.AlwaysCalm, Claimed, Started, EndedTogether, FinishWould, IdsBelow, CanonicalVersion,
        History, Allowed;
      hide CallWrites, ObserveWrites, Held;
      var resultRef := host.Uuid();
      BelowGrows(client.g, old(host.nextId), host.nextId);
      var ended :- FinalizeRunningAttempt(client, running, attempt, End(CallSucceeded, Success, None, Some(resultRef), None, None));
      var (terminal, finalized) := ended;
      var o :- SaveObservation(client, owner, running, attempt, terminal, finalized, reply.resource, reply.version);
      return Answer(Execution(created, Some(terminal), Some(finalized), Some(FoundOutcome), Some(o)));
    }

    // From the reply to the terminal call and, for a found order, its Observation.
    method Conclude(client: RunClient, owner: string, created: ToolCall, running: ToolCall, attempt: Attempt,
                    reply: OrderReply) returns (r: Awaited<Execution>)
      requires hide *; client.Valid() && client.host == host && Started(running, attempt, host.now) && Unfinished(client.g)
      requires running.tool == "get_order" && running.effect.Read? && owner == client.g.conversation.owner
      modifies client`g, client`cursor, client.store, host
      ensures client.Valid() && old(client.store.past) <= client.store.past
      ensures old(host.now) <= host.now && old(host.nextId) <= host.nextId
      ensures r.Answer? ==>
                && r.value.created == created && Answers(reply, r.value)
                && r.value.terminal.Some? && r.value.attempt.Some?
                && EndedTogether(running, attempt, r.value.terminal.value, r.value.attempt.value)
                && client.g == Recorded(old(client.g), r.value.terminal.value, r.value.attempt.value, r.value.observation)
      ensures r.Raised? ==> client.Current() && Unfinished(client.g)
      ensures reply.OrderRaises? ==> r == Raised(reply.signal) && client.cursor == old(client.cursor)
      ensures client.store.AlwaysCalm() && reply.OrderRaises? ==> client.g == old(client.g)
      ensures client.store.AlwaysCalm() && FinishWould(old(client.g), running, attempt) && !reply.OrderRaises? ==>
                client.cursor == old(client.cursor).Closed(running.callId)
      ensures old(client.Calm()) && FinishWould(old(client.g), running, attempt) && !reply.OrderRaises? ==>
                r.Answer? && client.Calm()
    {
      hide RuntimeStore.AlwaysCalm, Claimed, Started, EndedTogether, FinishWould, IdsBelow, CanonicalVersion,
        Answers, Recorded, History, Allowed;
      if reply.OrderRaises? {
        client.Abandon();
        return Raised(reply.signal);
      }
      if Canonical(reply).Found? {
        r := ConcludeFound(client, owner, created, running, attempt, reply);
      } else {
        r := ConcludeEmpty(client, owner, created, running, attempt, reply);
      }
    }

    method SaveObservation(client: RunClient, owner: string, ghost running: ToolCall, ghost attempt: Attempt,
                           terminal: ToolCall, ghost finalized: Attempt, resource: string, version: string)
      returns (r: Awaited<Observation>)
      requires hide *; client.Valid() && client.host == host && EndedTogether(running, attempt, terminal, finalized)
      requires running.tool == "get_order" && running.effect.Read? && owner == client.g.conversation.owner
      requires terminal.status.CallSucceeded? && Unfinished(client.g)
      modifies client`g, client.store, host
      ensures client.Valid() && old(client.store.past) <= client.store.past
      ensures old(host.now) == host.now && old(host.nextId) <= host.nextId
      ensures r.Answer? ==>
                && terminal.finishedAt == Some(r.value.recordedAt)
                && r.value == Observation(r.value.observationId, "get_order", resource, version, r.value.recordedAt, None)
                && client.g == ObserveWrites(old(client.g), r.value, terminal.callId)
      ensures r.Raised? ==> client.Current() && Unfinished(client.g)
      ensures old(client.Calm()) && terminal.callId in old(client.g.calls) && old(client.g.calls[terminal.callId]) == terminal ==>
                r.Answer? && client.Calm()
    {
      hide RuntimeStore.AlwaysCalm, RuntimeStore.Valid, Held, Claimed, EndedTogether, Lands, ApplyWrite, Sendable, IdsBelow,
        ObserveWrites, SaveObservationCommand.Valid, Written;
      var observationId := host.Uuid();
      SucceededCall(running, attempt, terminal, finalized);
      var observation := Observation(observationId, "get_order", resource, version, terminal.finishedAt.value, None);
      var c := SaveObservationCommand(owner, observation, terminal);
      ObservationFits(running, attempt, c, finalized);
      ObservationIsSendable(client.g, c);
      StaysUnfinished(client.g, Write.SaveObservation(c));
      if IdsBelow(client.g, observationId) && terminal.callId in client.g.calls && client.g.calls[terminal.callId] == terminal {
        FreshObservation(client.g, c);
      }
      var saved :- client.Submit(Write.SaveObservation(c));
      if !saved { return Raised(Exception); }
      return Answer(observation);
    }

    // Cancelled after dispatch: the attempt is marked interrupted, if that still works.
    method MarkInterrupted(client: RunClient, running: ToolCall, attempt: Attempt)
      requires hide *; client.Valid() && client.host == host && Started(running, attempt, host.now) && Unfinished(client.g)
      requires running.runId == client.id
      modifies client`g, client`cursor, client.store, host
      ensures client.Valid() && old(client.store.past) <= client.store.past
      ensures old(host.now) <= host.now && old(host.nextId) <= host.nextId
      ensures client.Current() && Unfinished(client.g)
      ensures client.store.AlwaysCalm() ==>
                || client.cursor == old(client.cursor).Closed(running.callId)
                || (client.cursor == old(client.cursor) && !FinishWould(old(client.g), running, attempt))
      ensures old(client.Calm()) && FinishWould(old(client.g), running, attempt) ==>
                InterruptedOnce(old(client.g), client.g, running, attempt)
    {
      hide RuntimeStore.AlwaysCalm, Claimed, Started, EndedTogether, FinishWould, IdsBelow, History, Allowed, CursorOf,
        CallWrites;
      var ended := FinalizeRunningAttempt(
        client, running, attempt,
        End(CallInterrupted, Interrupted, Some("TOOL_CALL_CANCELLED"), None, None, Some("TOOL_CALL_CANCELLED")));
      if ended.Raised? { return; }
      var terminal := ended.value.0;
      FinalRunId(running, attempt, terminal, ended.value.1);
      var traced := client.AppendTrace(InterruptedEvent(0, 0, terminal), terminal.finishedAt);
      if old(client.Calm()) && FinishWould(old(client.g), running, attempt) {
        InterruptedIs(old(client.g), client.g, running, attempt, terminal.finishedAt.value, traced.value);
      }
      client.Abandon();
    }

    method CreateCall(client: RunClient, a: Authorized) returns (r: Awaited<ToolCall>)
      requires hide *; client.Valid() && client.host == host && Fits(client.g, a) && client.g.run.status.RunRunning?
      modifies client`g, client`cursor, client.store, host
      ensures client.Valid() && old(client.store.past) <= client.store.past
      ensures old(host.now) <= host.now && old(host.nextId) <= host.nextId
      ensures r.Answer? ==>
                var c := r.value;
                && c == CreatedCall(a, c.callId, c.startedAt) && c.startedAt <= host.now && c.callId !in old(client.g).calls
                && client.g == CallWrites(old(client.g), c, []) && CallStored(client.g, c) && c.runId == client.id
                && client.g.conversation == old(client.g).conversation && Unfinished(client.g)
                && (client.store.AlwaysCalm() ==>
                      && client.cursor == old(client.cursor).Opened(c.callId) && client.cursor.open != {}
                      && client.cursor.Closed(c.callId) == old(client.cursor))
      ensures r.Raised? ==> client.Current() && Unfinished(client.g) && client.cursor == old(client.cursor)
      ensures old(client.Calm()) ==> r.Answer? && client.Calm()
    {
      hide RuntimeStore.AlwaysCalm, RuntimeStore.Valid, Held, Claimed, IdsBelow, Fits, ApplyWrite, Lands, Sendable,
        CallWrites, CallStored, Unfinished, CursorOf, Cursor.Opened, Cursor.Closed;
      var startedAt := host.Clock();
      var callId := host.Uuid();
      var created := CreatedCall(a, callId, startedAt);
      CallIsStored(client.g, created);
      InsertIsSendable(client.g, a, created);
      AuthorizedParts(client.g, a);
      StaysUnfinished(client.g, InsertCall(CreateCallCommand(created)));
      FreshCall(client.g, callId, created);
      CallMovesCursor(client.g, created, []);
      var inserted :- client.Move(InsertCall(CreateCallCommand(created)));
      if !inserted { return Raised(Exception); }
      return Answer(created);
    }

    // The attempt, and whether the fence was applied.
    method StartCall(client: RunClient, created: ToolCall) returns (r: Awaited<(Attempt, bool)>)
      requires hide *; client.Valid() && client.host == host && Unfinished(client.g)
      requires Startable(created) && created.startedAt <= host.now
      modifies client`g, client.store, host
      ensures client.Valid() && old(client.store.past) <= client.store.past
      ensures old(host.now) <= host.now && old(host.nextId) <= host.nextId
      ensures r.Answer? ==>
                var (attempt, granted) := r.value;
                && Started(RunningCall(created), attempt, host.now)
                && (granted ==>
                      && client.Granted(created.callId)
                      && client.g == CallWrites(old(client.g), RunningCall(created), [attempt])
                      && FinishWould(client.g, RunningCall(created), attempt)
                      && client.g.conversation == old(client.g).conversation && Unfinished(client.g))
      ensures (r.Answer? && !r.value.1) || r.Raised? ==> client.Current() && Unfinished(client.g)
      ensures client.store.AlwaysCalm() && CallStored(old(client.g), created) ==> r.Answer? && r.value.1
      ensures old(client.Calm()) && CallStored(old(client.g), created) ==> client.Calm()
    {
      hide RuntimeStore.AlwaysCalm, Claimed, IdsBelow, ApplyWrite, Lands, Sendable, DispatchCallCommand.Valid,
        Started, History, Allowed;
      var now := host.Clock();
      var attempt, running := Attempt(created.callId, 1, now, None, None, None), RunningCall(created);
      StartedNow(created, attempt, host.now);
      var fence := DispatchCallCommand(created, running, attempt);
      DispatchIsSendable(client.g, created, attempt);
      StaysUnfinished(client.g, Dispatch(fence));
      if IdsBelow(client.g, host.nextId) && CallStored(client.g, created) {
        CallBelow(client.g, running, [attempt], host.nextId);
      }
      var granted :- client.Submit(Dispatch(fence));
      return Answer((attempt, granted));
    }

    // The call is created, fenced, and only then sent.
    method ExecuteGetOrder(client: RunClient, a: Authorized) returns (r: Awaited<Execution>)
      requires hide *; client.Valid() && client.host == host && Fits(client.g, a) && client.g.run.status.RunRunning?
      requires a.owner == client.g.conversation.owner
      modifies client`g, client`cursor, client.store, host, port`asked
      ensures client.Valid() && old(client.store.past) <= client.store.past
      ensures old(host.now) <= host.now && old(host.nextId) <= host.nextId
      ensures port.asked == old(port.asked) || port.asked == old(port.asked) + [Integrity.OrderQuery(a.owner, a.orderId)]
      ensures r.Answer? && r.value.terminal.Some? ==> Executed(old(client.g), client.g, a, port.reply, r.value)
      ensures r.Answer? && r.value.terminal.None? ==> Unfinished(client.g)
      ensures r.Raised? ==> client.Current() && Unfinished(client.g)
      ensures old(client.Calm()) && a.Sound() && !port.reply.OrderRaises? ==>
                r.Answer? && r.value.terminal.Some? && client.Calm()
      ensures port.asked != old(port.asked) ==>
                && a.policy.maxAttempts == 1 && a.policy.interruptBehavior == "MARK_INTERRUPTED" && 0 < a.remainingMs
                && a.tool == "get_order" && a.registryRef == a.registryVersion
      ensures client.store.AlwaysCalm() ==>
                CallLeft(old(client.cursor), client.cursor, port.asked != old(port.asked), port.reply)
    {
      hide RuntimeStore.AlwaysCalm, Claimed, Started, EndedTogether, IdsBelow, Answers, Authorized.Sound, Fits,
        Executed, Recorded, Startable, Held, CallWrites, FinishWould, CallStored, RunningCall, CreatedCall,
        Unfinished, History, Allowed;
      ghost var g0 := client.g;
      RunningIsUnfinished(g0);
      if !a.Sound() {
        client.Abandon();
        return Raised(Exception);
      }
      AuthorizedParts(client.g, a);
      SoundMeans(a);
      var created :- CreateCall(client, a);
      var fenced :- StartCall(client, created);
      var (attempt, granted) := fenced;
      ghost var now := host.now;
      if !granted { return Answer(Execution(created, None, None, None, None)); }
      r := Dispatched(client, a, created, attempt);
      if r.Answer? { ExecutedWhole(g0, client.g, a, port.reply, r.value, attempt, now); }
    }

    // Past the fence: get_order is sent once, and a cancellation marks the attempt interrupted.
    method Dispatched(client: RunClient, a: Authorized, created: ToolCall, attempt: Attempt)
      returns (r: Awaited<Execution>)
      requires hide *; client.Valid() && client.host == host && Unfinished(client.g) && a.owner == client.g.conversation.owner
      requires Startable(created) && created.runId == client.id && Started(RunningCall(created), attempt, host.now)
      requires client.Granted(created.callId)
      modifies client`g, client`cursor, client.store, host, port`asked
      ensures client.Valid() && old(client.store.past) <= client.store.past
      ensures old(host.now) <= host.now && old(host.nextId) <= host.nextId
      ensures port.asked == old(port.asked) + [Integrity.OrderQuery(a.owner, a.orderId)]
      ensures r.Answer? ==>
                && r.value.created == created && Answers(port.reply, r.value)
                && r.value.terminal.Some? && r.value.attempt.Some?
                && EndedTogether(RunningCall(created), attempt, r.value.terminal.value, r.value.attempt.value)
                && client.g == Recorded(old(client.g), r.value.terminal.value, r.value.attempt.value, r.value.observation)
      ensures r.Raised? ==> client.Current() && Unfinished(client.g)
      ensures old(client.Calm()) && FinishWould(old(client.g), RunningCall(created), attempt) && !port.reply.OrderRaises? ==>
                r.Answer? && client.Calm()
      ensures client.store.AlwaysCalm() && FinishWould(old(client.g), RunningCall(created), attempt) ==>
                client.cursor == if port.reply == OrderRaises(Exception) then old(client.cursor)
                                 else old(client.cursor).Closed(created.callId)
      ensures && old(client.Calm()) && FinishWould(old(client.g), RunningCall(created), attempt)
              && port.reply == OrderRaises(Cancellation)
              ==> InterruptedOnce(old(client.g), client.g, RunningCall(created), attempt)
    {
      hide RuntimeStore.AlwaysCalm, Claimed, Started, EndedTogether, IdsBelow, Answers, FinishWould, Recorded,
        History, Allowed, CursorOf, InterruptedOnce;
      client.store.SendGetOrder(client.id, created.callId);
      var reply := port.GetOrder(Integrity.OrderQuery(a.owner, a.orderId));
      var waited := client.Wait();
      if waited.Raised? { reply := OrderRaises(waited.signal); }
      r := Settle(client, a.owner, created, attempt, reply);
    }

    // What the reply makes of the call; a cancellation marks the attempt interrupted.
    method Settle(client: RunClient, owner: string, created: ToolCall, attempt: Attempt, reply: OrderReply)
      returns (r: Awaited<Execution>)
      requires hide *; client.Valid() && client.host == host && Unfinished(client.g) && owner == client.g.conversation.owner
      requires Startable(created) && created.runId == client.id && Started(RunningCall(created), attempt, host.now)
      modifies client`g, client`cursor, client.store, host
      ensures client.Valid() && old(client.store.past) <= client.store.past
      ensures old(host.now) <= host.now && old(host.nextId) <= host.nextId
      ensures r.Answer? ==>
                && r.value.created == created && Answers(reply, r.value)
                && r.value.terminal.Some? && r.value.attempt.Some?
                && EndedTogether(RunningCall(created), attempt, r.value.terminal.value, r.value.attempt.value)
                && client.g == Recorded(old(client.g), r.value.terminal.value, r.value.attempt.value, r.value.observation)
      ensures r.Raised? ==> client.Current() && Unfinished(client.g)
      ensures reply.OrderRaises? ==> r.Raised?
      ensures old(client.Calm()) && FinishWould(old(client.g), RunningCall(created), attempt) && !reply.OrderRaises? ==>
                r.Answer? && client.Calm()
      ensures client.store.AlwaysCalm() && FinishWould(old(client.g), RunningCall(created), attempt) ==>
                client.cursor == if reply == OrderRaises(Exception) then old(client.cursor)
                                 else old(client.cursor).Closed(created.callId)
      ensures && old(client.Calm()) && FinishWould(old(client.g), RunningCall(created), attempt)
              && reply == OrderRaises(Cancellation)
              ==> InterruptedOnce(old(client.g), client.g, RunningCall(created), attempt)
    {
      hide RuntimeStore.AlwaysCalm, Claimed, Started, EndedTogether, IdsBelow, Answers, FinishWould, Recorded,
        History, Allowed, CursorOf, InterruptedOnce;
      ClosedTwice(client.cursor, created.callId);
      r := Conclude(client, owner, created, RunningCall(created), attempt, reply);
      assert reply.OrderRaises? ==> reply.signal.Exception? || reply.signal.Cancellation?;
      if r == Raised(Cancellation) {
        StartedLater(RunningCall(created), attempt, old(host.now), host.now);
        BelowGrows(client.g, old(host.nextId), host.nextId);
        MarkInterrupted(client, RunningCall(created), attempt);
      }
    }
  }

  lemma InterruptedIs(g: RunGraph, g': RunGraph, running: ToolCall, attempt: Attempt, at: Time, e: TraceEvent)
    requires var end := End(CallInterrupted, Interrupted, Some("TOOL_CALL_CANCELLED"), None, None, Some("TOOL_CALL_CANCELLED"));
             g' == AppendWrites(CallWrites(g, EndOfCall(running, end, at), [EndOfAttempt(attempt, end, at)]), e)
    requires e == InterruptedEvent(0, 0, running).(eventId := e.eventId, at := at)
    ensures InterruptedOnce(g, g', running, attempt)
  {
    hide AppendWrites, CallWrites;
    assert e == InterruptedEvent(e.eventId, at, running);
  }

  // The one call the Run has made, its attempt and its Observation.
  predicate Executed(g: RunGraph, g': RunGraph, a: Authorized, reply: OrderReply, x: Execution) {
    && Answers(reply, x)
    && var c, at := x.terminal.value, x.attempt.value;
       && x.created == CreatedCall(a, c.callId, c.startedAt) && c.callId !in g.calls
       && c.startedAt <= at.startedAt
       && EndedTogether(RunningCall(x.created), Attempt(c.callId, 1, at.startedAt, None, None, None), c, at)
       && g' == Recorded(g, c, at, x.observation)
  }

  lemma SoundMeans(a: Authorized)
    requires a.Sound()
    ensures a.policy.maxAttempts == 1 && a.policy.interruptBehavior == "MARK_INTERRUPTED" && 0 < a.remainingMs
    ensures a.tool == "get_order" && a.registryRef == a.registryVersion
  {
  }

  lemma FinalRunId(running: ToolCall, attempt: Attempt, c: ToolCall, x: Attempt)
    requires EndedTogether(running, attempt, c, x)
    ensures c.runId == running.runId && c.callId == running.callId && c.finishedAt.Some?
  {
  }

  lemma InsertIsSendable(g: RunGraph, a: Authorized, created: ToolCall)
    requires Fits(g, a) && g.run.status.RunRunning? && created == CreatedCall(a, created.callId, created.startedAt)
    ensures Sendable(g, InsertCall(CreateCallCommand(created))) && Unfinished(g)
    ensures IdsBelow(g, created.callId) ==> Lands(g, InsertCall(CreateCallCommand(created)))
    ensures Lands(g, InsertCall(CreateCallCommand(created))) ==>
              created.callId !in g.calls
              && ApplyWrite(g, InsertCall(CreateCallCommand(created))) == CallWrites(g, created, [])
  {
  }

  lemma AuthorizedParts(g: RunGraph, a: Authorized)
    requires Fits(g, a)
    ensures a.runId == g.run.runId && forall k, at :: Startable(CreatedCall(a, k, at))
  {
  }

  predicate Startable(c: ToolCall) {
    c.Valid() && c.status.CallCreated? && c.attemptCount == 0 && c.Clean() && c.effect.Read? && c.tool == "get_order"
  }

  lemma StartedNow(created: ToolCall, attempt: Attempt, now: Time)
    requires Startable(created)
    requires attempt == Attempt(created.callId, 1, attempt.startedAt, None, None, None)
    requires created.startedAt <= attempt.startedAt <= now
    ensures Started(RunningCall(created), attempt, now)
    ensures DispatchCallCommand(created, RunningCall(created), attempt).Valid()
  {
  }

  lemma StartedLater(running: ToolCall, attempt: Attempt, now: Time, later: Time)
    requires Started(running, attempt, now) && now <= later
    ensures Started(running, attempt, later)
  {
  }

  predicate CallStored(g: RunGraph, c: ToolCall) {
    c.callId in g.calls && g.calls[c.callId] == c && c.callId in g.attempts && g.attempts[c.callId] == []
  }

  lemma CallIsStored(g: RunGraph, c: ToolCall)
    requires g.run.status.RunRunning?
    ensures CallStored(CallWrites(g, c, []), c) && CallWrites(g, c, []).conversation == g.conversation
    ensures Unfinished(CallWrites(g, c, []))
  {
  }

  lemma FreshCall(g: RunGraph, bound: Id, c: ToolCall)
    requires c.callId == bound
    ensures forall b :: IdsBelow(g, bound) && bound < b ==> IdsBelow(CallWrites(g, c, []), b)
  {
  }

  // The later states of the call overwrite the earlier ones.
  lemma LastCallStays(g: RunGraph, created: ToolCall, running: ToolCall, c: ToolCall, ys: seq<Attempt>, xs: seq<Attempt>)
    requires created.callId == running.callId == c.callId
    ensures CallWrites(CallWrites(CallWrites(g, created, []), running, ys), c, xs) == CallWrites(g, c, xs)
  {
  }

  lemma EndedKeeps(created: ToolCall, attempt: Attempt, c: ToolCall, x: Attempt, now: Time)
    requires EndedTogether(RunningCall(created), attempt, c, x) && Started(RunningCall(created), attempt, now)
    ensures c.callId == created.callId && c.startedAt == created.startedAt && x.startedAt == attempt.startedAt
    ensures attempt == Attempt(c.callId, 1, x.startedAt, None, None, None) && c.startedAt <= x.startedAt
  {
  }

  lemma ExecutedWhole(g: RunGraph, g': RunGraph, a: Authorized, reply: OrderReply, x: Execution, attempt: Attempt, now: Time)
    requires Answers(reply, x) && x.created == CreatedCall(a, x.created.callId, x.created.startedAt)
    requires EndedTogether(RunningCall(x.created), attempt, x.terminal.value, x.attempt.value)
    requires Started(RunningCall(x.created), attempt, now) && x.created.callId !in g.calls
    requires g' == Recorded(CallWrites(CallWrites(g, x.created, []), RunningCall(x.created), [attempt]),
                            x.terminal.value, x.attempt.value, x.observation)
    ensures Executed(g, g', a, reply, x) && x.terminal.Some?
  {
    EndedKeeps(x.created, attempt, x.terminal.value, x.attempt.value, now);
    LastCallStays(g, x.created, RunningCall(x.created), x.terminal.value, [attempt], [x.attempt.value]);
    hide EndedTogether, Started, CallWrites, ObserveWrites, CreatedCall;
  }

  lemma DispatchIsSendable(g: RunGraph, created: ToolCall, attempt: Attempt)
    requires DispatchCallCommand(created, RunningCall(created), attempt).Valid() && Unfinished(g) && created.effect.Read?
    ensures var w := Dispatch(DispatchCallCommand(created, RunningCall(created), attempt));
            && Sendable(g, w) && NeedsActive(w)
            && (Lands(g, w) <==> CallStored(g, created))
            && (Lands(g, w) ==> ApplyWrite(g, w) == CallWrites(g, RunningCall(created), [attempt]))
  {
    hide DispatchCallCommand.Valid;
  }

  lemma SucceededCall(running: ToolCall, attempt: Attempt, c: ToolCall, x: Attempt)
    requires EndedTogether(running, attempt, c, x)
    ensures c.finishedAt.Some?
  {
  }

  lemma ObservationFits(running: ToolCall, attempt: Attempt, c: SaveObservationCommand, x: Attempt)
    requires EndedTogether(running, attempt, c.source, x) && c.source.status.CallSucceeded?
    requires running.tool == "get_order" && running.effect.Read? && c.observation.sourceTool == "get_order"
    ensures c.Valid()
  {
  }

  lemma ObservationIsSendable(g: RunGraph, c: SaveObservationCommand)
    requires c.Valid() && Unfinished(g) && c.owner == g.conversation.owner
    ensures Sendable(g, SaveObservation(c)) && !NeedsActive(SaveObservation(c))
    ensures Written(g, SaveObservation(c)) == ObserveWrites(g, c.observation, c.source.callId)
  {
  }

  lemma FreshObservation(g: RunGraph, c: SaveObservationCommand)
    requires IdsBelow(g, c.observation.observationId) && c.source.callId in g.calls && g.calls[c.source.callId] == c.source
    requires c.owner == g.conversation.owner
    ensures Lands(g, SaveObservation(c))
    ensures forall b :: c.observation.observationId < b ==> IdsBelow(ObserveWrites(g, c.observation, c.source.callId), b)
  {
  }

  predicate FinishWould(g: RunGraph, running: ToolCall, attempt: Attempt) {
    && running.callId in g.calls && g.calls[running.callId] == running
    && running.callId in g.attempts && g.attempts[running.callId] == [attempt]
  }

  lemma EndIsFinal(g: RunGraph, running: ToolCall, attempt: Attempt, end: End, now: Time, at: Time)
    requires end.Valid() && Started(running, attempt, now) && now <= at && Unfinished(g)
    ensures var c, x := EndOfCall(running, end, at), EndOfAttempt(attempt, end, at);
            && FinalizeCallCommand(running, attempt, c, x).Valid() && EndedTogether(running, attempt, c, x)
            && c.callId == running.callId && c.status == end.status && x.outcome == Some(end.outcome)
            && c.finishedAt == Some(at)
            && CallWrites(g, c, [x]).conversation == g.conversation && Unfinished(CallWrites(g, c, [x]))
            && c.callId in CallWrites(g, c, [x]).calls && CallWrites(g, c, [x]).calls[c.callId] == c
  {
  }

  lemma CallStaysBelow(g: RunGraph, running: ToolCall, attempt: Attempt, c: ToolCall, x: Attempt, bound: Id)
    requires c.callId == running.callId
    ensures FinishWould(g, running, attempt) && IdsBelow(g, bound) ==> IdsBelow(CallWrites(g, c, [x]), bound)
  {
    if FinishWould(g, running, attempt) && IdsBelow(g, bound) { CallBelow(g, c, [x], bound); }
  }

  lemma FinishIsSendable(g: RunGraph, c: FinalizeCallCommand)
    requires c.Valid() && Unfinished(g)
    ensures Sendable(g, FinishCall(c)) && NeedsActive(FinishCall(c))
    ensures Lands(g, FinishCall(c)) <==> FinishWould(g, c.expected, c.expectedAttempt)
    ensures Lands(g, FinishCall(c)) ==> ApplyWrite(g, FinishCall(c)) == CallWrites(g, c.terminal, [c.attempt])
  {
    hide FinalizeCallCommand.Valid;
  }
}
