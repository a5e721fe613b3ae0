// All Runs together: handlers, executors and recovery of any number of Runs
// interleave freely.  A process that dies simply takes no further steps.

module Reachable {
  import opened Records
  import opened Commands
  import opened RecoveryCommands
  import opened RunStore
  import opened Protocol
  import opened Behaviours
  import Interleaving

  // The records of one Run, the calls whose dispatch fence was answered APPLIED
  // and not used yet, and the calls get_order was sent for, in order.
  datatype System = System(g: RunGraph, granted: set<Id>, sent: seq<Id>)

  // `heard` is false when the answer never reached the client: the write may
  // have landed all the same.
  datatype Step = Wrote(w: Write, heard: bool) | SentGetOrder(callId: Id)

  predicate StepAllowed(s: System, e: Step) {
    match e
    case Wrote(w, _) => Allowed(s.g, w)
    case SentGetOrder(id) => id in s.granted
  }

  function Take(s: System, e: Step): System {
    match e
    case Wrote(w, heard) =>
      s.(g := ApplyWrite(s.g, w), granted := Granted(s.g, s.granted, w, heard))
    case SentGetOrder(id) => s.(granted := s.granted - {id}, sent := s.sent + [id])
  }

  // A granted or sent call left CREATED with exactly its first attempt recorded.
  predicate Fenced(g: RunGraph, id: Id) {
    id in g.calls && !g.calls[id].status.CallCreated? && g.calls[id].attemptCount == 1
    && id in g.attempts && |g.attempts[id]| == 1 && g.attempts[id][0].attemptNo == 1
  }

  predicate FencesOk(g: RunGraph, granted: set<Id>, sent: seq<Id>) {
    && Distinct(sent)
    && (forall id :: id in granted ==> id !in sent && Fenced(g, id))
    && (forall id :: id in sent ==> Fenced(g, id))
  }

  predicate SystemInv(s: System) { Inv(s.g) && FencesOk(s.g, s.granted, s.sent) }

  lemma FencedStays(g: RunGraph, g': RunGraph, id: Id)
    requires Fenced(g, id) && CallsKept(g.calls, g'.calls)
    requires CallsOk(g'.run, g'.tasks, g'.units, g'.calls, g'.attempts)
    ensures Fenced(g', id)
  {
    assert CallKept(g.calls[id], g'.calls[id]);
    assert CallOk(g'.run, g'.tasks, g'.units, id, g'.calls[id], g'.attempts[id]);
  }

  // A fence is granted by a write that takes the call out of CREATED, so never twice.
  lemma LandedDispatchFences(g: RunGraph, c: DispatchCallCommand)
    requires Inv(g) && c.Valid() && DispatchMatches(g, c)
    ensures !Fenced(g, c.expected.callId)
    ensures Fenced(CallWrites(g, c.running, [c.attempt]), c.expected.callId)
  {
  }

  lemma FencesStay(g: RunGraph, g': RunGraph, granted: set<Id>, granted': set<Id>, sent: seq<Id>)
    requires FencesOk(g, granted, sent) && CallsKept(g.calls, g'.calls)
    requires CallsOk(g'.run, g'.tasks, g'.units, g'.calls, g'.attempts)
    requires forall id :: id in granted' && id !in granted ==> Fenced(g', id) && !Fenced(g, id)
    ensures FencesOk(g', granted', sent)
  {
    forall id | id in granted || id in sent ensures Fenced(g', id) { FencedStays(g, g', id); }
  }

  lemma SentKeepsFences(g: RunGraph, granted: set<Id>, sent: seq<Id>, id: Id)
    requires FencesOk(g, granted, sent) && id in granted
    ensures FencesOk(g, granted - {id}, sent + [id])
  {
  }

  lemma InvGivesCalls(g: RunGraph, g': RunGraph)
    requires Inv(g') && Preserves(g, g')
    ensures CallsOk(g'.run, g'.tasks, g'.units, g'.calls, g'.attempts) && CallsKept(g.calls, g'.calls)
  {
  }

  function Granted(g: RunGraph, granted: set<Id>, w: Write, heard: bool): set<Id> {
    if heard && w.Dispatch? && Lands(g, w) then granted + {w.dispatch.expected.callId} else granted
  }

  lemma NewlyGrantedIsFenced(g: RunGraph, granted: set<Id>, w: Write, heard: bool, id: Id)
    requires Inv(g) && Allowed(g, w) && id in Granted(g, granted, w, heard) && id !in granted
    ensures Fenced(ApplyWrite(g, w), id) && !Fenced(g, id)
  {
    hide Inv, Fenced, CallWrites, DispatchMatches, RecoveryCommand.Valid, CreateGraphCommand.Valid, FinalizeRunCommand.Valid,
      RecoverMatches, FinalizeMatches, CreateMatches, AlreadyCreated;
    LandedDispatchFences(g, w.dispatch);
  }

  lemma WroteKeepsInv(s: System, w: Write, heard: bool)
    requires SystemInv(s) && Allowed(s.g, w)
    ensures SystemInv(Take(s, Wrote(w, heard)))
  {
    hide Inv, ApplyWrite, Preserves, Granted, Allowed, FencesOk;
    var g', granted' := ApplyWrite(s.g, w), Granted(s.g, s.granted, w, heard);
    WriteKeepsInv(s.g, w);
    AllowedPreserves(s.g, w);
    InvGivesCalls(s.g, g');
    forall id | id in granted' && id !in s.granted ensures Fenced(g', id) && !Fenced(s.g, id) {
      NewlyGrantedIsFenced(s.g, s.granted, w, heard, id);
    }
    FencesStay(s.g, g', s.granted, granted', s.sent);
  }

  lemma StepKeepsInv(s: System, e: Step)
    requires SystemInv(s) && StepAllowed(s, e)
    ensures SystemInv(Take(s, e))
  {
    hide Inv, ApplyWrite, Granted, Allowed, FencesOk;
    match e
    case Wrote(w, heard) => WroteKeepsInv(s, w, heard);
    case SentGetOrder(id) => SentKeepsFences(s.g, s.granted, s.sent, id);
  }

  predicate KeepsRecords(s: System, s': System) { Preserves(s.g, s'.g) && s.sent <= s'.sent }

  lemma StepKeepsRecords(s: System, e: Step)
    requires SystemInv(s) && StepAllowed(s, e)
    ensures KeepsRecords(s, Take(s, e))
  {
    hide Inv, ApplyWrite, Preserves, Allowed;
    match e
    case Wrote(w, heard) => AllowedPreserves(s.g, w);
    case SentGetOrder(id) => AuditPreserves(s.g, s.g.manifests, s.g.gates);
  }

  // ----- Any interleaving over any number of Runs -----

  // A Run starts with its record just inserted and nothing else.
  predicate Fresh(key: Id, s: System) {
    && s.granted == {} && s.sent == []
    && s.g.run.runId == key && CreateRunCommand(s.g.run).Valid()
    && s.g.run.conversationId == Some(s.g.conversation.conversationId)
    && exists m :: m in s.g.messages && s.g == Inserted(s.g.conversation, s.g.run, s.g.messages[m])
  }

  type World = map<Id, System>
  type Moving = Interleaving.Move<System, Step>

  ghost predicate History(ws: seq<World>, ms: seq<Moving>) {
    Interleaving.History(ws, ms, Fresh, StepAllowed, Take)
  }

  lemma FreshInv(key: Id, s: System)
    requires Fresh(key, s)
    ensures SystemInv(s)
  {
    var m :| m in s.g.messages && s.g == Inserted(s.g.conversation, s.g.run, s.g.messages[m]);
    InsertedInv(s.g.conversation, s.g.run, s.g.messages[m]);
  }

  lemma AllStepsKeepInv()
    ensures forall k, s :: Fresh(k, s) ==> SystemInv(s)
    ensures forall s, e :: SystemInv(s) && StepAllowed(s, e) ==> SystemInv(Take(s, e))
  {
    forall k, s | Fresh(k, s) ensures SystemInv(s) { FreshInv(k, s); }
    forall s, e | SystemInv(s) && StepAllowed(s, e) ensures SystemInv(Take(s, e)) { StepKeepsInv(s, e); }
  }

  lemma AllStepsKeepRecords()
    ensures forall s, e :: SystemInv(s) && StepAllowed(s, e) ==> KeepsRecords(s, Take(s, e))
  {
    forall s, e | SystemInv(s) && StepAllowed(s, e) ensures KeepsRecords(s, Take(s, e)) { StepKeepsRecords(s, e); }
  }

  lemma KeepsRecordsIsOrder()
    ensures forall s :: KeepsRecords(s, s)
    ensures forall a, b, c :: KeepsRecords(a, b) && KeepsRecords(b, c) ==> KeepsRecords(a, c)
  {
    forall s ensures KeepsRecords(s, s) { AuditPreserves(s.g, s.g.manifests, s.g.gates); }
    forall a, b, c | KeepsRecords(a, b) && KeepsRecords(b, c) ensures KeepsRecords(a, c) {
      PreservesTransitive(a.g, b.g, c.g);
    }
  }

  // Every Run satisfies the invariant in every reachable state.
  lemma ReachableInv(ws: seq<World>, ms: seq<Moving>, i: nat, r: Id)
    requires hide *; History(ws, ms) && i < |ws| && r in ws[i]
    ensures SystemInv(ws[i][r])
  {
    AllStepsKeepInv();
    Interleaving.InvariantHolds(ws, ms, Fresh, StepAllowed, Take, SystemInv, i);
  }

  // Whatever is final in a reachable state is found unchanged in every later one.
  lemma NothingUndone(ws: seq<World>, ms: seq<Moving>, i: nat, j: nat, r: Id)
    requires hide *; History(ws, ms) && i <= j < |ws| && r in ws[i]
    ensures r in ws[j] && KeepsRecords(ws[i][r], ws[j][r])
  {
    AllStepsKeepInv();
    AllStepsKeepRecords();
    KeepsRecordsIsOrder();
    Interleaving.OrderHolds(ws, ms, Fresh, StepAllowed, Take, SystemInv, KeepsRecords, i, j, r);
  }
}
