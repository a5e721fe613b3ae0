// The control gateway: nine deterministic checks over the revalidated move, the
// current graph and the registry snapshot, and the decision built from them.

module Gateway {
  import opened Records
  import opened Understanding
  import opened Proposals
  import opened OrderId
  import opened Reducer
  import opened Sorting

  // ----- The registry -----

  // `body` stands for the description and the two schemas, compared only for equality.
  datatype ToolSpec = ToolSpec(name: string, body: nat)

  const GET_ORDER_SPEC := ToolSpec("get_order", 0)

  datatype ExecutionPolicy = ExecutionPolicy(timeoutMs: int, maxAttempts: int, interruptBehavior: string)

  datatype Registration = Registration(
    spec: ToolSpec, providerName: string, effect: ToolEffect, policy: ExecutionPolicy)

  datatype ToolBinding = ToolBinding(providerName: string, canonicalName: string)

  datatype Snapshot = Snapshot(
    version: string, registrations: seq<Registration>, visible: seq<ToolSpec>, bindings: seq<ToolBinding>,
    hash: string)

  predicate UniqueNames(rs: seq<Registration>) {
    forall i, j :: 0 <= i < j < |rs| ==>
      rs[i].spec.name != rs[j].spec.name && rs[i].providerName != rs[j].providerName
  }

  predicate SpecLe(a: ToolSpec, b: ToolSpec) { TextLe(a.name, b.name) && (a.name == b.name ==> a.body <= b.body) }

  predicate BindingLe(a: ToolBinding, b: ToolBinding) {
    TextLe(a.providerName, b.providerName) && (a.providerName == b.providerName ==> TextLe(a.canonicalName, b.canonicalName))
  }

  function VisibleSpec(r: Registration): ToolSpec { ToolSpec(r.providerName, r.spec.body) }

  function BindingOf(r: Registration): ToolBinding { ToolBinding(r.providerName, r.spec.name) }

  function VisibleSpecs(rs: seq<Registration>): seq<ToolSpec> { Map(rs, VisibleSpec) }

  function BindingsOf(rs: seq<Registration>): seq<ToolBinding> { Map(rs, BindingOf) }

  // Registrations may come in any order; what the model sees is sorted by name.
  function Build(version: string, rs: seq<Registration>, hash: seq<ToolSpec> -> string): Option<Snapshot> {
    if rs == [] || !UniqueNames(rs) then None
    else
      var visible := Sort(VisibleSpecs(rs), SpecLe);
      Some(Snapshot(version, rs, visible, Sort(BindingsOf(rs), BindingLe), hash(visible)))
  }

  // ----- Lookups -----

  function BindingsNamed(bs: seq<ToolBinding>, name: string): (r: seq<ToolBinding>)
    ensures forall b :: b in r <==> b in bs && b.providerName == name
  {
    if bs == [] then []
    else
      var last, front := bs[|bs| - 1], BindingsNamed(bs[..|bs| - 1], name);
      assert bs == bs[..|bs| - 1] + [last];
      if last.providerName == name then front + [last] else front
  }

  function RegistrationsNamed(rs: seq<Registration>, name: string): (r: seq<Registration>)
    ensures forall x :: x in r <==> x in rs && x.spec.name == name
  {
    if rs == [] then []
    else
      var last, front := rs[|rs| - 1], RegistrationsNamed(rs[..|rs| - 1], name);
      assert rs == rs[..|rs| - 1] + [last];
      if last.spec.name == name then front + [last] else front
  }

  function SpecsNamed(ts: seq<ToolSpec>, name: string): (r: seq<ToolSpec>)
    ensures forall t :: t in r <==> t in ts && t.name == name
  {
    if ts == [] then []
    else
      var last, front := ts[|ts| - 1], SpecsNamed(ts[..|ts| - 1], name);
      assert ts == ts[..|ts| - 1] + [last];
      if last.name == name then front + [last] else front
  }

  function ResolveRegistration(s: Snapshot, name: string): (Option<string>, Option<Registration>) {
    var bindings := BindingsNamed(s.bindings, name);
    if |bindings| != 1 then (None, None)
    else
      var canonical := bindings[0].canonicalName;
      var registrations := RegistrationsNamed(s.registrations, canonical);
      if |registrations| != 1 then (Some(canonical), None) else (Some(canonical), Some(registrations[0]))
  }

  function ResolveVisibleSpec(s: Snapshot, name: string): Option<ToolSpec> {
    var specs := SpecsNamed(s.visible, name);
    if |specs| != 1 then None else Some(specs[0])
  }

  predicate MatchesVisible(r: Option<Registration>, spec: Option<ToolSpec>) {
    r.Some? && spec.Some? && spec.value == VisibleSpec(r.value)
  }

  // The lookup after the gate: only a registration whose visible projection was gated.
  function ResolveValidatedGetOrder(s: Snapshot, name: string): Option<Registration> {
    var (canonical, registration) := ResolveRegistration(s, name);
    if canonical != Some("get_order") || name != "get_order" || registration.None?
       || registration.value.providerName != name || registration.value.spec != GET_ORDER_SPEC
       || !MatchesVisible(registration, ResolveVisibleSpec(s, name))
    then None
    else registration
  }

  // ----- Revalidation -----

  datatype RevalidatedMove = RevalidatedMove(
    runId: Id, taskId: Id, unitId: Id, moveRef: Id, tool: string, arguments: Arguments,
    candidateOrderId: Option<string>, bindingOrderId: string, bindingRefs: seq<Id>,
    proposedBase: Option<nat>, validatedVersion: nat)
  {
    predicate Valid() {
      && tool != "" && bindingRefs != [] && 1 <= validatedVersion && IsOrderId(bindingOrderId)
      && (candidateOrderId.Some? ==> IsOrderId(candidateOrderId.value))
    }
  }

  // The normal form of the one argument, when it is the only one and a text.
  function CandidateOrderId(arguments: Arguments): (r: Option<string>)
    ensures r.Some? ==> IsOrderId(r.value)
  {
    if arguments.Keys == {"order_id"} && arguments["order_id"].JsonText? then Normalize(arguments["order_id"].text)
    else None
  }

  predicate Current(d: Decision, task: Task, unit: RequestUnit, binding: InputBinding)
    requires d.Routable?
  {
    && task == d.graph.task && unit == d.graph.unit && binding == d.graph.binding
    && task.status.TaskActive? && unit.status.TaskActive? && task.version == 1 && unit.version == 1
    && unit.taskId == task.taskId
    && unit.bindingRefs == [binding.bindingId] && d.graph.delta.bindingRefs == [binding.bindingId]
  }

  // Against the persisted graph and without rewriting the arguments; None is an error.
  function Revalidate(d: Decision, task: Task, unit: RequestUnit, binding: InputBinding): Option<RevalidatedMove>
    requires d.Routable?
  {
    var m := d.move;
    if !Current(d, task, unit, binding) || !m.kind.CallTool? || m.tool.None? || m.arguments.None?
       || !ArgumentsFree(m.arguments.value)
    then None
    else
      Some(RevalidatedMove(
        d.closure.record.runId, task.taskId, unit.unitId, d.moveRef, m.tool.value, m.arguments.value,
        CandidateOrderId(m.arguments.value), binding.orderId, [binding.bindingId], m.base, task.version))
  }

  // ----- The nine checks -----

  datatype Budget = Budget(used: int, max: int)
  {
    predicate Valid() { max == 1 && 0 <= used < max }
  }

  function Checks(m: RevalidatedMove, customer: string, task: Task, unit: RequestUnit, binding: InputBinding,
                  s: Snapshot, manifest: ContextManifest, modelCallId: Id, budget: Budget, progress: bool): GateChecks
  {
    var (canonical, registration) := ResolveRegistration(s, m.tool);
    var visible := ResolveVisibleSpec(s, m.tool);
    GateChecks(
      manifest.registryVersion == s.version && manifest.toolsetHash == s.hash,
      canonical == Some("get_order") && m.tool == "get_order" && registration.Some?
        && registration.value.providerName == "get_order" && visible.Some?,
      SchemaValid(m, registration, visible),
      ArgumentsFree(m.arguments),
      GraphBindingValid(m, unit, binding) && m.candidateOrderId == Some(binding.orderId),
      budget.Valid(),
      progress,
      StateVersionValid(m, customer, task, unit, manifest, modelCallId),
      registration.Some? && registration.value.effect.Read?)
  }

  predicate SchemaValid(m: RevalidatedMove, registration: Option<Registration>, visible: Option<ToolSpec>) {
    && registration.Some? && registration.value.spec == GET_ORDER_SPEC && MatchesVisible(registration, visible)
    && m.arguments.Keys == {"order_id"} && m.arguments["order_id"].JsonText?
    && Normalize(m.arguments["order_id"].text).Some?
    && m.candidateOrderId == Normalize(m.arguments["order_id"].text)
  }

  predicate GraphBindingValid(m: RevalidatedMove, unit: RequestUnit, binding: InputBinding) {
    unit.bindingRefs == [binding.bindingId] && m.bindingRefs == [binding.bindingId]
    && m.bindingOrderId == binding.orderId
  }

  predicate StateVersionValid(m: RevalidatedMove, customer: string, task: Task, unit: RequestUnit,
                              manifest: ContextManifest, modelCallId: Id)
  {
    && task.owner == customer && task.taskId == m.taskId && unit.taskId == task.taskId && unit.unitId == m.unitId
    && task.status.TaskActive? && unit.status.TaskActive?
    && task.version == unit.version && task.version == m.validatedVersion && m.proposedBase.None?
    && manifest.taskRef.None? && manifest.runId == m.runId && manifest.modelCallId == modelCallId
  }

  // Reasons in the order the gateway reports them.
  const PRIORITY: seq<GateReason> := [
    ArgumentBindingMismatch, SnapshotMismatch, ToolNotRegistered, TrustedFieldInjection, SchemaInvalid,
    BudgetExceeded, NoProgress, StateVersionMismatch, ActionRequiresProposal]

  function ReasonOf(c: GateChecks): Option<GateReason> {
    if !c.argumentBindingValid then Some(ArgumentBindingMismatch)
    else if !c.snapshotMatch then Some(SnapshotMismatch)
    else if !c.registrationValid then Some(ToolNotRegistered)
    else if !c.trustedFieldValid then Some(TrustedFieldInjection)
    else if !c.schemaValid then Some(SchemaInvalid)
    else if !c.budgetValid then Some(BudgetExceeded)
    else if !c.progressValid then Some(NoProgress)
    else if !c.stateVersionValid then Some(StateVersionMismatch)
    else if !c.actionBoundaryValid then Some(ActionRequiresProposal)
    else None
  }

  function Evaluate(gateId: Id, m: RevalidatedMove, customer: string, task: Task, unit: RequestUnit,
                    binding: InputBinding, s: Snapshot, manifest: ContextManifest, modelCallId: Id,
                    budget: Budget, progress: bool, decidedAt: Time): GateDecision
  {
    var checks := Checks(m, customer, task, unit, binding, s, manifest, modelCallId, budget, progress);
    GateDecision(
      gateId, modelCallId, manifest.manifestId, m.tool, ResolveRegistration(s, m.tool).0, checks, m.bindingRefs,
      m.proposedBase, Some(m.validatedVersion), checks.All(), ReasonOf(checks), decidedAt)
  }

  // ----- What it guarantees, for every snapshot and every current graph -----

  // The reported reason is the first of the nine, in priority order, whose check failed.
  lemma FirstFailedCheck(c: GateChecks)
    ensures ReasonOf(c).None? <==> c.All()
    ensures ReasonOf(c).Some? ==>
              exists k :: 0 <= k < |PRIORITY| && PRIORITY[k] == ReasonOf(c).value && !c.Named(PRIORITY[k])
                          && forall j :: 0 <= j < k ==> c.Named(PRIORITY[j])
  {
    if ReasonOf(c).Some? {
      var k := match ReasonOf(c).value
        case ArgumentBindingMismatch => 0
        case SnapshotMismatch => 1
        case ToolNotRegistered => 2
        case TrustedFieldInjection => 3
        case SchemaInvalid => 4
        case BudgetExceeded => 5
        case NoProgress => 6
        case StateVersionMismatch => 7
        case ActionRequiresProposal => 8;
      assert PRIORITY[k] == ReasonOf(c).value;
    }
  }

  // The decision is always well formed, whatever the inputs.
  lemma DecisionWellFormed(gateId: Id, m: RevalidatedMove, customer: string, task: Task, unit: RequestUnit,
                           binding: InputBinding, s: Snapshot, manifest: ContextManifest, modelCallId: Id,
                           budget: Budget, progress: bool, decidedAt: Time)
    requires m.Valid()
    ensures var d := Evaluate(gateId, m, customer, task, unit, binding, s, manifest, modelCallId, budget, progress, decidedAt);
            d.Valid() && (d.accepted <==> d.reason.None?)
  {
    var checks := Checks(m, customer, task, unit, binding, s, manifest, modelCallId, budget, progress);
    FirstFailedCheck(checks);
  }

  // Acceptance implies that the later lookup finds a READ registration, and the
  // argument is the bound order id.
  lemma AcceptanceSuffices(gateId: Id, m: RevalidatedMove, customer: string, task: Task, unit: RequestUnit,
                           binding: InputBinding, s: Snapshot, manifest: ContextManifest, modelCallId: Id,
                           budget: Budget, progress: bool, decidedAt: Time)
    requires Evaluate(gateId, m, customer, task, unit, binding, s, manifest, modelCallId, budget, progress, decidedAt).accepted
    ensures var r := ResolveValidatedGetOrder(s, m.tool);
            r.Some? && r.value in s.registrations && r.value.effect.Read? && r.value.spec == GET_ORDER_SPEC
    ensures m.arguments.Keys == {"order_id"} && m.arguments["order_id"].JsonText?
            && Names(m.arguments["order_id"].text, binding.orderId)
    ensures task.owner == customer && task.status.TaskActive? && task.version == m.validatedVersion
  {
    hide Normalize, ArgumentsFree, Budget.Valid, Names;
    NormalizesExactly(m.arguments["order_id"].text, binding.orderId);
    var registration := ResolveRegistration(s, m.tool).1;
    assert registration.value in RegistrationsNamed(s.registrations, "get_order");
  }

  // The lookup succeeds exactly when the registration and the visible projection
  // the gate looked at are those of get_order.
  lemma LookupExactly(m: RevalidatedMove, customer: string, task: Task, unit: RequestUnit, binding: InputBinding,
                      s: Snapshot, manifest: ContextManifest, modelCallId: Id, budget: Budget, progress: bool)
    ensures ResolveValidatedGetOrder(s, m.tool).Some? <==>
              && Checks(m, customer, task, unit, binding, s, manifest, modelCallId, budget, progress).registrationValid
              && ResolveRegistration(s, m.tool).1.value.spec == GET_ORDER_SPEC
              && MatchesVisible(ResolveRegistration(s, m.tool).1, ResolveVisibleSpec(s, m.tool))
  {
  }

  // A Task that moved after revalidation is never let through.
  lemma StaleTaskIsRejected(gateId: Id, m: RevalidatedMove, customer: string, task: Task, unit: RequestUnit,
                            binding: InputBinding, s: Snapshot, manifest: ContextManifest, modelCallId: Id,
                            budget: Budget, progress: bool, decidedAt: Time)
    requires !task.status.TaskActive? || task.version != m.validatedVersion
    ensures !Evaluate(gateId, m, customer, task, unit, binding, s, manifest, modelCallId, budget, progress, decidedAt).accepted
  {
    var checks := Checks(m, customer, task, unit, binding, s, manifest, modelCallId, budget, progress);
    assert !checks.stateVersionValid;
  }

  // Revalidation of a valid routable decision against its own graph fails only
  // when the move is not a tool call.
  lemma RevalidationExactly(d: Decision)
    requires d.Routable? && d.Valid() && d.move.Valid()
    ensures Revalidate(d, d.graph.task, d.graph.unit, d.graph.binding).Some? <==> d.move.kind.CallTool?
    ensures d.move.kind.CallTool? ==> Revalidate(d, d.graph.task, d.graph.unit, d.graph.binding).value.Valid()
  {
    hide Closure.Valid, ArgumentsFree, TaskGraph.Projects, Normalize;
    BoundOrderId(d.graph, d.closure.record);
  }

  lemma BoundOrderId(g: TaskGraph, record: UnderstandingRecord)
    requires g.Projects(record)
    ensures IsOrderId(g.binding.orderId)
  {
    var c :| c in record.candidates && |c.inputs| == 1 && Normalize(c.inputs[0].value) == Some(g.binding.orderId);
  }

  // ----- Snapshots -----

  predicate Consistent(s: Snapshot, hash: seq<ToolSpec> -> string) {
    && s.hash == hash(Sort(s.visible, SpecLe))
    && UniqueNames(s.registrations)
    && Members(s.bindings) == Members(BindingsOf(s.registrations))
    && VisibleNames(s.visible) == ProviderNames(s.registrations)
  }

  function VisibleNames(ts: seq<ToolSpec>): set<string> { set t | t in ts :: t.name }

  function ProviderNames(rs: seq<Registration>): set<string> { set r | r in rs :: r.providerName }

  lemma NamesProjected(rs: seq<Registration>, visible: seq<ToolSpec>)
    requires forall t :: t in visible <==> t in VisibleSpecs(rs)
    ensures VisibleNames(visible) == ProviderNames(rs)
  {
    var specs := VisibleSpecs(rs);
    forall r | r in rs ensures r.providerName in VisibleNames(visible) {
      var i :| 0 <= i < |rs| && rs[i] == r;
      assert specs[i] in specs;
    }
    forall t | t in visible ensures t.name in ProviderNames(rs) {
      var i :| 0 <= i < |specs| && specs[i] == t;
      assert rs[i] in rs;
    }
  }

  function Members<T(==)>(s: seq<T>): set<T> { set x | x in s }

  // Every built snapshot passes its own consistency check.
  lemma BuiltIsConsistent(version: string, rs: seq<Registration>, hash: seq<ToolSpec> -> string)
    requires Build(version, rs, hash).Some?
    ensures Consistent(Build(version, rs, hash).value, hash)
  {
    var s := Build(version, rs, hash).value;
    var specs, bindings := VisibleSpecs(rs), BindingsOf(rs);
    SpecOrder();
    OrdersStrict(specs, bindings);
    SortKeeps(specs, SpecLe);
    SortIsCanonical(specs, s.visible, SpecLe);
    SortKeeps(bindings, BindingLe);
    SameMembers(s.bindings, bindings);
    SameMembers(s.visible, specs);
    NamesProjected(rs, s.visible);
    hide Sort, VisibleNames, ProviderNames, UniqueNames, TotalOrder, Strict;
  }

  lemma SpecOrder()
    ensures TotalOrder(SpecLe)
  {
    forall a: ToolSpec, b: ToolSpec ensures SpecLe(a, b) || SpecLe(b, a) { TextLeTotal(a.name, b.name); }
    forall a: ToolSpec, b: ToolSpec, c: ToolSpec | SpecLe(a, b) && SpecLe(b, c) ensures SpecLe(a, c) {
      TextLeTransitive(a.name, b.name, c.name);
      TextLeTotal(a.name, b.name);
      TextLeTotal(b.name, c.name);
    }
  }

  lemma BindingOrder()
    ensures TotalOrder(BindingLe)
  {
    forall a: ToolBinding, b: ToolBinding ensures BindingLe(a, b) || BindingLe(b, a) {
      TextLeTotal(a.providerName, b.providerName);
      TextLeTotal(a.canonicalName, b.canonicalName);
    }
    forall a: ToolBinding, b: ToolBinding, c: ToolBinding | BindingLe(a, b) && BindingLe(b, c) ensures BindingLe(a, c) {
      TextLeTransitive(a.providerName, b.providerName, c.providerName);
      TextLeTotal(a.providerName, b.providerName);
      TextLeTotal(b.providerName, c.providerName);
      if a.providerName == c.providerName { TextLeTransitive(a.canonicalName, b.canonicalName, c.canonicalName); }
    }
  }

  lemma OrdersStrict(ts: seq<ToolSpec>, bs: seq<ToolBinding>)
    ensures Strict(ts, SpecLe) && Strict(bs, BindingLe)
  {
    forall a, b | a in ts && b in ts && SpecLe(a, b) && SpecLe(b, a) ensures a == b { TextLeTotal(a.name, b.name); }
    forall a, b | a in bs && b in bs && BindingLe(a, b) && BindingLe(b, a) ensures a == b {
      TextLeTotal(a.providerName, b.providerName);
      TextLeTotal(a.canonicalName, b.canonicalName);
    }
  }

  // What the model sees does not depend on the order of registration.
  lemma BuildForgetsOrder(version: string, rs: seq<Registration>, ts: seq<Registration>, hash: seq<ToolSpec> -> string)
    requires multiset(rs) == multiset(ts)
    requires Build(version, rs, hash).Some? && Build(version, ts, hash).Some?
    ensures var a, b := Build(version, rs, hash).value, Build(version, ts, hash).value;
            a.visible == b.visible && a.bindings == b.bindings && a.hash == b.hash
  {
    MapKeepsMultiset(rs, ts, VisibleSpec);
    MapKeepsMultiset(rs, ts, BindingOf);
    SpecOrder();
    BindingOrder();
    OrdersStrict(VisibleSpecs(rs), BindingsOf(rs));
    SortIsCanonical(VisibleSpecs(rs), VisibleSpecs(ts), SpecLe);
    SortIsCanonical(BindingsOf(rs), BindingsOf(ts), BindingLe);
  }

  // ----- Lookups in a built snapshot -----

  // What `Build` makes of its registrations.
  predicate Built(s: Snapshot) {
    && UniqueNames(s.registrations)
    && s.visible == Sort(VisibleSpecs(s.registrations), SpecLe) && s.bindings == Sort(BindingsOf(s.registrations), BindingLe)
  }

  lemma BuildIsBuilt(version: string, rs: seq<Registration>, hash: seq<ToolSpec> -> string)
    requires Build(version, rs, hash).Some?
    ensures var s := Build(version, rs, hash).value;
            Built(s) && s.registrations == rs && s.version == version && s.hash == hash(Sort(VisibleSpecs(rs), SpecLe))
  {
    hide Sort, UniqueNames;
  }

  lemma NoneLeft<T>(s: seq<T>)
    requires forall x :: x !in s
    ensures s == []
  {
    if s != [] { HasFirst(s); }
  }

  lemma HasFirst<T>(s: seq<T>)
    requires s != []
    ensures s[0] in s
  {
  }

  lemma {:induction false} OneNamed(bs: seq<ToolBinding>, b: ToolBinding)
    requires b in bs && forall i, j :: 0 <= i < j < |bs| ==> bs[i].providerName != bs[j].providerName
    ensures BindingsNamed(bs, b.providerName) == [b]
  {
    var k := |bs| - 1;
    var front, last := bs[..k], bs[k];
    assert bs == front + [last];
    if last == b {
      assert forall x :: x in BindingsNamed(front, b.providerName) ==> x in front;
      NoneLeft(BindingsNamed(front, b.providerName));
    } else {
      OneNamed(front, b);
    }
  }

  lemma {:induction false} OneVisible(ts: seq<ToolSpec>, t: ToolSpec)
    requires t in ts && forall i, j :: 0 <= i < j < |ts| ==> ts[i].name != ts[j].name
    ensures SpecsNamed(ts, t.name) == [t]
  {
    var k := |ts| - 1;
    var front, last := ts[..k], ts[k];
    assert ts == front + [last];
    if last == t {
      assert forall x :: x in SpecsNamed(front, t.name) ==> x in front;
      NoneLeft(SpecsNamed(front, t.name));
    } else {
      OneVisible(front, t);
    }
  }

  lemma {:induction false} OneRegistered(rs: seq<Registration>, r: Registration)
    requires r in rs && UniqueNames(rs)
    ensures RegistrationsNamed(rs, r.spec.name) == [r]
  {
    var k := |rs| - 1;
    var front, last := rs[..k], rs[k];
    assert rs == front + [last];
    if last == r {
      assert forall x :: x in RegistrationsNamed(front, r.spec.name) ==> x in front;
      NoneLeft(RegistrationsNamed(front, r.spec.name));
    } else {
      OneRegistered(front, r);
    }
  }

  // No two elements share a key, in whatever order they come.
  predicate KeysDiffer<T>(s: seq<T>, key: T -> string) { forall i, j :: 0 <= i < j < |s| ==> key(s[i]) != key(s[j]) }

  lemma KeysStayApart<T>(s: seq<T>, sorted: seq<T>, key: T -> string)
    requires multiset(s) == multiset(sorted) && KeysDiffer(s, key)
    ensures KeysDiffer(sorted, key)
  {
    forall i, j | 0 <= i < j < |sorted| ensures key(sorted[i]) != key(sorted[j]) {
      var a, b := sorted[i], sorted[j];
      assert a in multiset(s) && b in multiset(s);
      var k :| 0 <= k < |s| && s[k] == a;
      var l :| 0 <= l < |s| && s[l] == b;
      if k == l {
        TwiceIn(sorted, i, j);
        OnceIn(s, key, k);
      }
    }
  }

  lemma TwiceIn<T>(s: seq<T>, i: nat, j: nat)
    requires i < j < |s| && s[i] == s[j]
    ensures multiset(s)[s[i]] >= 2
  {
    assert s == s[..i] + [s[i]] + s[i + 1..j] + [s[j]] + s[j + 1..];
  }

  lemma OnceIn<T>(s: seq<T>, key: T -> string, k: nat)
    requires k < |s| && KeysDiffer(s, key)
    ensures multiset(s)[s[k]] == 1
  {
    assert s == s[..k] + [s[k]] + s[k + 1..];
    assert s[k] !in s[..k] && s[k] !in s[k + 1..];
  }

  function BindingKey(b: ToolBinding): string { b.providerName }

  function SpecKey(t: ToolSpec): string { t.name }

  lemma SortedBindings(rs: seq<Registration>)
    requires UniqueNames(rs)
    ensures var bs := Sort(BindingsOf(rs), BindingLe);
            KeysDiffer(bs, BindingKey) && forall b :: b in bs <==> exists r :: r in rs && b == BindingOf(r)
  {
    var all, sorted := BindingsOf(rs), Sort(BindingsOf(rs), BindingLe);
    SortKeeps(all, BindingLe);
    SameMembers(sorted, all);
    KeysStayApart(all, sorted, BindingKey);
    forall r | r in rs ensures BindingOf(r) in all {
      var i :| 0 <= i < |rs| && rs[i] == r;
      assert all[i] == BindingOf(r);
    }
  }

  lemma SortedSpecs(rs: seq<Registration>)
    requires UniqueNames(rs)
    ensures var ts := Sort(VisibleSpecs(rs), SpecLe);
            KeysDiffer(ts, SpecKey) && forall t :: t in ts <==> exists r :: r in rs && t == VisibleSpec(r)
  {
    var all, sorted := VisibleSpecs(rs), Sort(VisibleSpecs(rs), SpecLe);
    SortKeeps(all, SpecLe);
    SameMembers(sorted, all);
    KeysStayApart(all, sorted, SpecKey);
    forall r | r in rs ensures VisibleSpec(r) in all {
      var i :| 0 <= i < |rs| && rs[i] == r;
      assert all[i] == VisibleSpec(r);
    }
  }

  // A registered name leads to its registration and to what the model sees of it.
  lemma RegisteredResolves(s: Snapshot, r: Registration)
    requires Built(s) && r in s.registrations
    ensures ResolveRegistration(s, r.providerName) == (Some(r.spec.name), Some(r))
    ensures ResolveVisibleSpec(s, r.providerName) == Some(VisibleSpec(r))
  {
    hide Sort;
    SortedBindings(s.registrations);
    SortedSpecs(s.registrations);
    OneNamed(s.bindings, BindingOf(r));
    OneVisible(s.visible, VisibleSpec(r));
    OneRegistered(s.registrations, r);
  }

  // Any other name leads nowhere.
  lemma UnregisteredFails(s: Snapshot, name: string)
    requires Built(s) && forall r :: r in s.registrations ==> r.providerName != name
    ensures ResolveRegistration(s, name) == (None, None) && ResolveVisibleSpec(s, name) == None
  {
    hide Sort;
    SortedBindings(s.registrations);
    SortedSpecs(s.registrations);
    NoneLeft(BindingsNamed(s.bindings, name));
    NoneLeft(SpecsNamed(s.visible, name));
  }

  // In a built snapshot every registration is found under its provider name.
  lemma BuiltResolves(version: string, rs: seq<Registration>, hash: seq<ToolSpec> -> string, r: Registration)
    requires Build(version, rs, hash).Some? && r in rs
    ensures ResolveRegistration(Build(version, rs, hash).value, r.providerName) == (Some(r.spec.name), Some(r))
  {
    BuildIsBuilt(version, rs, hash);
    RegisteredResolves(Build(version, rs, hash).value, r);
  }

  // ----- When the gate accepts -----

  // The registration a provider name stands for.
  ghost predicate Registered(s: Snapshot, name: string, r: Registration) { r in s.registrations && r.providerName == name }

  // The one argument, and the order id it names.
  ghost predicate Orders(arguments: Arguments, orderId: string) {
    arguments.Keys == {"order_id"} && arguments["order_id"].JsonText? && Names(arguments["order_id"].text, orderId)
  }

  lemma OrdersFreely(arguments: Arguments, orderId: string)
    requires Orders(arguments, orderId)
    ensures ArgumentsFree(arguments) && CandidateOrderId(arguments) == Some(orderId)
    ensures forall other :: Orders(arguments, other) ==> other == orderId
  {
    hide Names, TrustedName, Normalize;
    NormalizesExactly(arguments["order_id"].text, orderId);
    forall other | Orders(arguments, other) ensures other == orderId { NormalizesExactly(arguments["order_id"].text, other); }
    PlainName("order_id");
  }

  lemma PlainName(name: string)
    requires name == "order_id"
    ensures !TrustedName(name)
  {
    TrustedExactly(name);
  }

  // What each check stands for, in a built snapshot.
  lemma ChecksExactly(m: RevalidatedMove, customer: string, task: Task, unit: RequestUnit, binding: InputBinding, s: Snapshot,
                      manifest: ContextManifest, modelCallId: Id, budget: Budget, progress: bool)
    requires Built(s)
    ensures var c := Checks(m, customer, task, unit, binding, s, manifest, modelCallId, budget, progress);
            && (c.snapshotMatch <==> manifest.registryVersion == s.version && manifest.toolsetHash == s.hash)
            && (c.registrationValid <==>
                  m.tool == "get_order" && exists r :: Registered(s, "get_order", r) && r.spec.name == "get_order")
            && (c.schemaValid <==>
                  && (exists r :: Registered(s, m.tool, r) && r.spec == GET_ORDER_SPEC)
                  && exists orderId :: Orders(m.arguments, orderId) && m.candidateOrderId == Some(orderId))
            && (c.trustedFieldValid <==> forall path, key :: !TrustedAt(JsonObject(m.arguments), path, key))
            && (c.argumentBindingValid <==>
                  && unit.bindingRefs == [binding.bindingId] == m.bindingRefs
                  && m.bindingOrderId == binding.orderId && m.candidateOrderId == Some(binding.orderId))
            && (c.budgetValid <==> budget.max == 1 && budget.used == 0)
            && (c.progressValid <==> progress)
            && (c.stateVersionValid <==>
                  && task.owner == customer && task.taskId == m.taskId == unit.taskId && unit.unitId == m.unitId
                  && task.status.TaskActive? && unit.status.TaskActive?
                  && task.version == unit.version == m.validatedVersion && m.proposedBase.None?
                  && manifest.taskRef.None? && manifest.runId == m.runId && manifest.modelCallId == modelCallId)
            && (c.actionBoundaryValid <==> exists r :: Registered(s, m.tool, r) && r.effect.Read?)
  {
    hide Built, ArgumentsFree, TrustedAt, Normalize, Names, ResolveRegistration, ResolveVisibleSpec;
    FreeExactly(m.arguments);
    if m.arguments.Keys == {"order_id"} && m.arguments["order_id"].JsonText? { NamesOrder(m); }
    if r :| Registered(s, m.tool, r) {
      RegisteredResolves(s, r);
      OnlyRegistered(s, m.tool, r);
    } else {
      forall r | r in s.registrations ensures r.providerName != m.tool { assert !Registered(s, m.tool, r); }
      UnregisteredFails(s, m.tool);
    }
  }

  lemma OnlyRegistered(s: Snapshot, name: string, r: Registration)
    requires Built(s) && Registered(s, name, r)
    ensures forall q :: Registered(s, name, q) ==> q == r
  {
    hide Sort;
    forall q | Registered(s, name, q) ensures q == r {
      var i :| 0 <= i < |s.registrations| && s.registrations[i] == q;
      var j :| 0 <= j < |s.registrations| && s.registrations[j] == r;
    }
  }

  lemma NamesOrder(m: RevalidatedMove)
    requires m.arguments.Keys == {"order_id"} && m.arguments["order_id"].JsonText?
    ensures var text := m.arguments["order_id"].text;
            forall orderId :: Normalize(text) == Some(orderId) <==> Names(text, orderId)
  {
    var text := m.arguments["order_id"].text;
    forall orderId ensures Normalize(text) == Some(orderId) <==> Names(text, orderId) { NormalizesExactly(text, orderId); }
  }

  // The gate accepts exactly the call of the registered READ get_order for the bound
  // order, made of the manifest's own snapshot and the Task as it was revalidated.
  lemma AcceptsExactly(gateId: Id, m: RevalidatedMove, customer: string, task: Task, unit: RequestUnit, binding: InputBinding,
                       s: Snapshot, manifest: ContextManifest, modelCallId: Id, budget: Budget, progress: bool, decidedAt: Time)
    requires Built(s)
    ensures Evaluate(gateId, m, customer, task, unit, binding, s, manifest, modelCallId, budget, progress, decidedAt).accepted <==>
              && m.tool == "get_order"
              && (exists r :: Registered(s, "get_order", r) && r.spec == GET_ORDER_SPEC && r.effect.Read?)
              && Orders(m.arguments, binding.orderId) && m.candidateOrderId == Some(binding.orderId)
              && manifest.registryVersion == s.version && manifest.toolsetHash == s.hash
              && unit.bindingRefs == [binding.bindingId] == m.bindingRefs && m.bindingOrderId == binding.orderId
              && budget.max == 1 && budget.used == 0 && progress
              && task.owner == customer && task.taskId == m.taskId == unit.taskId && unit.unitId == m.unitId
              && task.status.TaskActive? && unit.status.TaskActive?
              && task.version == unit.version == m.validatedVersion && m.proposedBase.None?
              && manifest.taskRef.None? && manifest.runId == m.runId && manifest.modelCallId == modelCallId
  {
    hide Built, TrustedAt, Orders, Checks;
    ChecksExactly(m, customer, task, unit, binding, s, manifest, modelCallId, budget, progress);
    FreeExactly(m.arguments);
    if Orders(m.arguments, binding.orderId) { OrdersFreely(m.arguments, binding.orderId); }
    if r :| Registered(s, m.tool, r) { OnlyRegistered(s, m.tool, r); }
  }

  // The snapshot offers get_order as the first slice knows it.
  ghost predicate Offers(s: Snapshot) {
    exists r :: Registered(s, "get_order", r) && r.spec == GET_ORDER_SPEC && r.effect.Read?
  }

  // The move asks get_order for this order.
  ghost predicate AsksFor(move: NextMove, orderId: string) {
    move.tool == Some("get_order") && move.arguments.Some? && Orders(move.arguments.value, orderId)
  }

  // A valid routable call, revalidated and put to the gate with the graph it was decided
  // on, the manifest of its own model call and nothing used up, is let through exactly
  // when it asks get_order for the bound order and the snapshot offers it.
  lemma OrdinaryMoveExactly(gateId: Id, d: Decision, customer: string, s: Snapshot, manifest: ContextManifest, decidedAt: Time)
    requires Built(s) && d.Routable? && d.Valid() && d.move.Valid() && d.move.kind.CallTool? && d.move.base.None?
    requires d.graph.task.owner == customer
    requires manifest.registryVersion == s.version && manifest.toolsetHash == s.hash && manifest.taskRef.None?
    requires manifest.runId == d.closure.record.runId
    ensures Revalidate(d, d.graph.task, d.graph.unit, d.graph.binding).Some?
    ensures var m := Revalidate(d, d.graph.task, d.graph.unit, d.graph.binding).value;
            Evaluate(gateId, m, customer, d.graph.task, d.graph.unit, d.graph.binding, s, manifest, manifest.modelCallId,
                     Budget(0, 1), true, decidedAt).accepted
            <==> Offers(s) && AsksFor(d.move, d.graph.binding.orderId)
  {
    hide Built, Orders, Evaluate, CandidateOrderId, ArgumentsFree, Decision.Valid, NextMove.Valid, Names;
    RevalidationExactly(d);
    var m := Revalidate(d, d.graph.task, d.graph.unit, d.graph.binding).value;
    AcceptsExactly(gateId, m, customer, d.graph.task, d.graph.unit, d.graph.binding, s, manifest, manifest.modelCallId,
                   Budget(0, 1), true, decidedAt);
    if Orders(m.arguments, d.graph.binding.orderId) { OrdersFreely(m.arguments, d.graph.binding.orderId); }
  }

  // So the gate of a built registry with a READ get_order lets an ordinary order request through.
  lemma OrdinaryOrderIsAccepted(version: string, rs: seq<Registration>, hash: seq<ToolSpec> -> string, r: Registration,
                                gateId: Id, d: Decision, customer: string, manifest: ContextManifest, decidedAt: Time)
    requires Build(version, rs, hash).Some? && r in rs
    requires r.providerName == "get_order" && r.spec == GET_ORDER_SPEC && r.effect.Read?
    requires d.Routable? && d.Valid() && d.move.Valid() && d.move.base.None? && d.graph.task.owner == customer
    requires d.move.kind.CallTool? && AsksFor(d.move, d.graph.binding.orderId)
    requires manifest.registryVersion == version && manifest.toolsetHash == hash(Sort(VisibleSpecs(rs), SpecLe))
    requires manifest.taskRef.None? && manifest.runId == d.closure.record.runId
    ensures var s := Build(version, rs, hash).value;
            var m := Revalidate(d, d.graph.task, d.graph.unit, d.graph.binding);
            && m.Some?
            && Evaluate(gateId, m.value, customer, d.graph.task, d.graph.unit, d.graph.binding, s, manifest,
                        manifest.modelCallId, Budget(0, 1), true, decidedAt).accepted
  {
    hide Sort, Evaluate, Decision.Valid, NextMove.Valid, Names, Revalidate;
    var s := Build(version, rs, hash).value;
    BuildIsBuilt(version, rs, hash);
    assert Registered(s, "get_order", r);
    hide Build, Built;
    OrdinaryMoveExactly(gateId, d, customer, s, manifest, decidedAt);
  }

  // The lookup after the gate, in a built snapshot.
  lemma LookupIsRegistered(s: Snapshot, r: Registration)
    requires Built(s)
    ensures ResolveValidatedGetOrder(s, "get_order") == Some(r) <==> Registered(s, "get_order", r) && r.spec == GET_ORDER_SPEC
  {
    hide Built, ResolveRegistration, ResolveVisibleSpec;
    if q :| Registered(s, "get_order", q) {
      RegisteredResolves(s, q);
      OnlyRegistered(s, "get_order", q);
    } else {
      forall q | q in s.registrations ensures q.providerName != "get_order" { assert !Registered(s, "get_order", q); }
      UnregisteredFails(s, "get_order");
    }
  }
}
