// The registry entries of five records: what identifies each of them, who owns it
// and what it refers to.  How a record is written as JSON and read again stays open.

module CodecRegistry {
  import opened Records
  import opened Understanding
  import opened Proposals
  import opened Sorting
  import opened Codec
  import opened CodecRecords

  // Writing one model as JSON and validating it again.
  datatype Storage<!T> = Storage(dump: T -> Json, load: Json -> Option<T>)

  ghost predicate Faithful<T(!new)>(s: Storage<T>, valid: T -> bool) {
    forall x :: valid(x) ==> s.load(s.dump(x)) == Some(x)
  }

  // The text of an identifier and of a number, and whether a target's identity is written canonically.
  datatype Naming = Naming(text: Id -> string, digits: nat -> string, canonical: (string, string) -> bool)
  {
    function Key(field: string, id: Id): string { "[[\"" + field + "\",\"" + text(id) + "\"]]" }

    function Numbered(field: string, k: nat): string { "[[\"" + field + "\"," + digits(k) + "]]" }

    function Ref(relation: string, target: string, field: string, id: Id): RecordReference {
      RecordReference(relation, target, Key(field, id))
    }

    function Refs(relation: string, target: string, field: string, ids: seq<Id>): (r: seq<RecordReference>)
      ensures forall x :: x in r ==> x.relation == relation
    {
      seq(|ids|, i requires 0 <= i < |ids| => Ref(relation, target, field, ids[i]))
    }

    function Maybe(relation: string, target: string, field: string, id: Option<Id>): (r: seq<RecordReference>)
      ensures forall x :: x in r ==> x.relation == relation
    {
      if id.Some? then [Ref(relation, target, field, id.value)] else []
    }
  }

  predicate ValidTask(t: Task) { t.Valid() }
  predicate ValidTransition(h: Transition) { h.Valid() }
  predicate ValidCall(c: ToolCall) { c.Valid() }
  predicate ValidAttempt(a: Attempt) { a.Valid() }
  predicate ValidRecord(r: UnderstandingRecord) { r.Valid() }
  predicate ValidDelta(d: AcceptedDelta) { d.Valid() && Distinct(d.bindingRefs) }
  predicate ValidObservation(o: Observation) { o.sourceTool == "get_order" }
  predicate ValidBinding(b: InputBinding) { b.sourceRefs != [] && b.createdAt <= b.updatedAt }

  // ----- Task: owned by its customer, refers to nothing itself -----

  function TaskEntry(n: Naming, s: Storage<Task>, c: Storage<Transition>): Schema<Task, Transition> {
    Schema("task_record", "task_record.p0.v1", ValidTask, (t: Task) => n.Key("task_id", t.taskId),
           (t: Task) => Some(t.owner), (t: Task) => true, (t: Task) => [], [], n.canonical, s.dump, s.load,
           "task_state_transition", ValidTransition,
           (h: Transition) => n.Key("task_id", h.taskId) + n.Key("request_unit_id", h.unitId) + n.Numbered("result_state_version", h.result),
           (h: Transition) => [n.Ref("request_unit_id", "request_unit_record", "request_unit_id", h.unitId)],
           c.dump, c.load, TransitionLe, false)
  }

  lemma TaskEntryIsLawful(n: Naming, s: Storage<Task>, c: Storage<Transition>)
    requires Faithful(s, ValidTask) && Faithful(c, ValidTransition)
    ensures Lawful(TaskEntry(n, s, c), TaskChildrenOk)
  {
    TaskRuleLawful();
  }

  // ----- ToolCall: six kinds of references -----

  function CallReferences(n: Naming, c: ToolCall): seq<RecordReference> {
    [n.Ref("run_id", "agent_run_record", "run_id", c.runId), n.Ref("task_id", "task_record", "task_id", c.taskId),
     n.Ref("request_unit_id", "request_unit_record", "request_unit_id", c.unitId),
     n.Ref("context_manifest_id", "context_manifest_record", "context_manifest_id", c.manifestId),
     n.Ref("gate_decision_id", "gate_decision_record", "gate_decision_id", c.gateId)]
    + n.Refs("argument_binding_ref", "input_binding_record", "binding_id", c.bindingRefs)
  }

  function CallEntry(n: Naming, s: Storage<ToolCall>, a: Storage<Attempt>): Schema<ToolCall, Attempt> {
    Schema("tool_call_record", "tool_call_record.p0.v1", ValidCall, (c: ToolCall) => n.Key("tool_call_id", c.callId),
           (c: ToolCall) => None, (c: ToolCall) => true, (c: ToolCall) => CallReferences(n, c), [], n.canonical, s.dump,
           s.load, "tool_attempt_record", ValidAttempt,
           (x: Attempt) => n.Key("tool_call_id", x.callId) + n.Numbered("attempt_no", x.attemptNo), (x: Attempt) => [],
           a.dump, a.load, AttemptLe, false)
  }

  lemma CallEntryIsLawful(n: Naming, s: Storage<ToolCall>, a: Storage<Attempt>)
    requires Faithful(s, ValidCall) && Faithful(a, ValidAttempt)
    ensures Lawful(CallEntry(n, s, a), CallChildrenOk)
  {
    CallRuleLawful();
    hide CallChildrenOk;
  }

  // ----- Request understanding: repeated sources count once -----

  function InputSources(cs: seq<DurableCandidate>): seq<Id> {
    if cs == [] then []
    else
      var last := cs[|cs| - 1].inputs;
      InputSources(cs[..|cs| - 1]) + seq(|last|, i requires 0 <= i < |last| => last[i].sourceRef)
  }

  function UnderstandingReferences(n: Naming, r: UnderstandingRecord): seq<RecordReference> {
    var resolved := r.context.references;
    Dedup(
      [n.Ref("run_id", "agent_run_record", "run_id", r.runId),
       n.Ref("message_ref", "message_record", "message_id", r.messageRef)]
      + n.Refs("contextualization_resolved_source_ref", "message_record", "message_id",
               seq(|resolved|, i requires 0 <= i < |resolved| => resolved[i].sourceRef))
      + n.Refs("contextualization_source_message_ref", "message_record", "message_id", r.context.sourceRefs)
      + n.Refs("task_delta_input_source_ref", "message_record", "message_id", InputSources(r.candidates)))
  }

  function UnderstandingEntry(n: Naming, s: Storage<UnderstandingRecord>, c: Storage<AcceptedDelta>):
    Schema<UnderstandingRecord, AcceptedDelta>
  {
    Schema("request_understanding_record", "request_understanding_record.p0.v2", ValidRecord,
           (r: UnderstandingRecord) => n.Key("request_understanding_record_id", r.recordId),
           (r: UnderstandingRecord) => None, (r: UnderstandingRecord) => true,
           (r: UnderstandingRecord) => UnderstandingReferences(n, r), [], n.canonical, s.dump, s.load,
           "accepted_task_delta", ValidDelta, (d: AcceptedDelta) => n.Key("accepted_delta_id", d.deltaId),
           (d: AcceptedDelta) =>
             n.Refs("input_binding_ref", "input_binding_record", "binding_id", d.bindingRefs)
             + [n.Ref("accepted_delta_task_id", "task_record", "task_id", d.taskId)],
           c.dump, c.load, DeltaLe, true)
  }

  lemma UnderstandingEntryIsLawful(n: Naming, s: Storage<UnderstandingRecord>, c: Storage<AcceptedDelta>)
    requires Faithful(s, ValidRecord) && Faithful(c, ValidDelta)
    ensures Lawful(UnderstandingEntry(n, s, c), UnderstandingChildrenOk)
  {
    UnderstandingRuleLawful();
    hide UnderstandingChildrenOk, ValidRecord, ValidDelta, UnderstandingReferences;
  }

  // ----- Observation and InputBinding: references only the caller knows -----

  ghost predicate NoChildren<R>(r: R, cs: seq<()>) { cs == [] }

  function NoChildStorage(): Storage<()> { Storage((c: ()) => JsonAtom(0), (j: Json) => Some(())) }

  predicate AnyOrder(a: (), b: ()) { true }

  lemma NoChildrenLawful<R(!new)>()
    ensures TotalOrder(AnyOrder)
    ensures forall r: R, cs, ds :: multiset(cs) == multiset(ds) && NoChildren(r, cs) ==> NoChildren(r, ds)
    ensures forall r: R, cs :: NoChildren(r, cs) ==> Strict(cs, AnyOrder)
    ensures forall c: () :: NoChildStorage().load(NoChildStorage().dump(c)) == Some(c)
  {
    forall r: R, cs, ds | multiset(cs) == multiset(ds) && NoChildren(r, cs) ensures NoChildren(r, ds) {
      assert |ds| == |multiset(ds)| == |multiset(cs)| == |cs|;
    }
    var storage := NoChildStorage();
    forall c: () ensures storage.load(storage.dump(c)) == Some(c) {
      assert c == ();
    }
  }

  const OBSERVATION_RULES := [
    Rule("source_tool_call_id", "tool_call_record"), Rule("source_run_id", "agent_run_record"),
    Rule("source_task_id", "task_record"), Rule("source_request_unit_id", "request_unit_record")]

  const BINDING_RULES := [Rule("request_unit_id", "request_unit_record")]

  function ObservationEntry(n: Naming, s: Storage<Observation>): Schema<Observation, ()> {
    Schema("observation_record", "observation_record.p0.v1", ValidObservation,
           (o: Observation) => n.Key("observation_id", o.observationId), (o: Observation) => None, (o: Observation) => true,
           (o: Observation) => n.Maybe("supersedes", "observation_record", "observation_id", o.supersedes),
           OBSERVATION_RULES, n.canonical, s.dump, s.load,
           "", (c: ()) => true, (c: ()) => "", (c: ()) => [], NoChildStorage().dump, NoChildStorage().load,
           AnyOrder, false)
  }

  function BindingReferences(n: Naming, b: InputBinding): seq<RecordReference> {
    n.Refs("source_ref", "message_record", "message_id", b.sourceRefs)
    + n.Maybe("supersedes", "input_binding_record", "binding_id", b.supersedes)
  }

  function BindingEntry(n: Naming, s: Storage<InputBinding>): Schema<InputBinding, ()> {
    Schema("input_binding_record", "input_binding_record.p0.v1", ValidBinding,
           (b: InputBinding) => n.Key("binding_id", b.bindingId), (b: InputBinding) => None, (b: InputBinding) => true,
           (b: InputBinding) => BindingReferences(n, b),
           BINDING_RULES, n.canonical, s.dump, s.load,
           "", (c: ()) => true, (c: ()) => "", (c: ()) => [], NoChildStorage().dump, NoChildStorage().load,
           AnyOrder, false)
  }

  lemma ObservationEntryIsLawful(n: Naming, s: Storage<Observation>)
    requires Faithful(s, ValidObservation)
    ensures Lawful(ObservationEntry(n, s), NoChildren)
  {
    NoChildrenLawful<Observation>();
    var e := ObservationEntry(n, s);
    assert TotalOrder(e.childLe);
    assert DistinctRules(e.rules);
    assert forall r, x :: x in e.references(r) ==> !InRules(e.rules, x.relation);
  }

  lemma BindingEntryIsLawful(n: Naming, s: Storage<InputBinding>)
    requires Faithful(s, ValidBinding)
    ensures Lawful(BindingEntry(n, s), NoChildren)
  {
    NoChildrenLawful<InputBinding>();
    var e := BindingEntry(n, s);
    assert TotalOrder(e.childLe);
    assert DistinctRules(e.rules);
    assert forall r, x :: x in e.references(r) ==> !InRules(e.rules, x.relation);
  }

  // ----- Which external references are accepted -----

  ghost predicate Answered(rule: Rule, rs: seq<RecordReference>, ok: (string, string) -> bool) {
    exists x :: x in rs && x.relation == rule.relation && x.target == rule.target && ok(x.target, x.identity)
  }

  lemma {:induction false} OfRelationDistinct(rs: seq<RecordReference>, relation: string)
    requires Distinct(rs)
    ensures Distinct(OfRelation(rs, relation))
  {
    if rs != [] {
      var k := |rs| - 1;
      OfRelationDistinct(rs[..k], relation);
      assert rs == rs[..k] + [rs[k]] && rs[k] !in rs[..k];
    }
  }

  // One accepted reference per rule, taken from the normalized ones.
  lemma {:induction false} EachRuleAnswered(rules: seq<Rule>, normalized: seq<RecordReference>, ok: (string, string) -> bool)
    requires AcceptExternal(rules, normalized, ok).Good?
    ensures forall i :: 0 <= i < |rules| ==> Answered(rules[i], normalized, ok)
  {
    if rules != [] {
      var k := |rules| - 1;
      EachRuleAnswered(rules[..k], normalized, ok);
      forall i | 0 <= i < k ensures Answered(rules[i], normalized, ok) { assert rules[..k][i] == rules[i]; }
      var matches := OfRelation(normalized, rules[k].relation);
      assert matches[0] in matches;
    }
  }

  // Distinct answers to distinct rules, as many as there are references, are all of them.
  lemma {:induction false} Answers(rules: seq<Rule>, rs: seq<RecordReference>, ok: (string, string) -> bool)
    returns (f: seq<RecordReference>)
    requires DistinctRules(rules) && forall i :: 0 <= i < |rules| ==> Answered(rules[i], rs, ok)
    ensures |f| == |rules| && Distinct(f)
    ensures forall i :: 0 <= i < |rules| ==>
              f[i] in rs && f[i].relation == rules[i].relation && f[i].target == rules[i].target && ok(f[i].target, f[i].identity)
  {
    if rules == [] {
      f := [];
    } else {
      var k := |rules| - 1;
      forall i | 0 <= i < k ensures Answered(rules[..k][i], rs, ok) { assert rules[..k][i] == rules[i]; }
      var front := Answers(rules[..k], rs, ok);
      assert Answered(rules[k], rs, ok);
      var x :| x in rs && x.relation == rules[k].relation && x.target == rules[k].target && ok(x.target, x.identity);
      f := front + [x];
      forall i | 0 <= i < k ensures f[i] != x && f[i] == front[i] { assert rules[..k][i] == rules[i]; }
    }
  }

  lemma {:induction false} MembersBound<T>(s: seq<T>)
    ensures |MembersOf(s)| <= |s|
    ensures |MembersOf(s)| == |s| ==> Distinct(s)
  {
    if s != [] {
      var k := |s| - 1;
      MembersBound(s[..k]);
      assert s == s[..k] + [s[k]];
      assert MembersOf(s) == MembersOf(s[..k]) + {s[k]};
      if |MembersOf(s)| == |s| { assert s[k] !in MembersOf(s[..k]); }
    }
  }

  lemma SubsetIsSmaller<T>(a: set<T>, b: set<T>)
    requires a <= b
    ensures |a| <= |b|
  {
    assert b == a + (b - a);
  }

  lemma NothingElse(f: seq<RecordReference>, rs: seq<RecordReference>)
    requires |f| == |rs| && Distinct(f) && forall x :: x in f ==> x in rs
    ensures Distinct(rs) && forall x :: x in f <==> x in rs
  {
    MembersBound(rs);
    CardinalityOfDistinct(f);
    assert MembersOf(f) <= MembersOf(rs);
    SubsetIsSmaller(MembersOf(f), MembersOf(rs));
    AllTaken(f, rs);
  }

  lemma {:induction false} AcceptsAnswers(rules: seq<Rule>, normalized: seq<RecordReference>, f: seq<RecordReference>,
                                          ok: (string, string) -> bool, n: nat)
    requires n <= |rules| == |f| && DistinctRules(rules) && Distinct(normalized)
    requires forall x :: x in f <==> x in normalized
    requires forall i :: 0 <= i < |rules| ==>
               f[i].relation == rules[i].relation && f[i].target == rules[i].target && ok(f[i].target, f[i].identity)
    ensures AcceptExternal(rules[..n], normalized, ok) == Good(f[..n])
  {
    if n > 0 {
      var k := n - 1;
      AcceptsAnswers(rules, normalized, f, ok, k);
      assert rules[..n][..k] == rules[..k] && rules[..n][k] == rules[k];
      var matches := OfRelation(normalized, rules[k].relation);
      OfRelationDistinct(normalized, rules[k].relation);
      OnlyAnswer(rules, f, matches, k);
      assert f[..n] == f[..k] + [f[k]];
    }
  }

  lemma OnlyAnswer(rules: seq<Rule>, f: seq<RecordReference>, matches: seq<RecordReference>, k: nat)
    requires k < |rules| == |f| && DistinctRules(rules) && Distinct(matches)
    requires forall i :: 0 <= i < |rules| ==> f[i].relation == rules[i].relation
    requires forall x :: x in matches <==> x in f && x.relation == rules[k].relation
    ensures matches == [f[k]]
  {
    assert f[k] in f;
    forall i | 0 <= i < |matches| ensures matches[i] == f[k] {
      assert matches[i] in matches;
      var j :| 0 <= j < |f| && f[j] == matches[i];
    }
    assert f[k] in matches;
    CardinalityOfDistinct(matches);
    assert MembersOf(matches) == {f[k]};
  }

  // External references are accepted exactly when there is one for every rule, with
  // the target and a canonical identity the rule asks for, and no further one.
  lemma ExternalExactly(rules: seq<Rule>, rs: seq<RecordReference>, ok: (string, string) -> bool)
    requires DistinctRules(rules)
    ensures External(rules, rs, ok).Good? <==>
              |rs| == |rules| && forall i :: 0 <= i < |rules| ==> Answered(rules[i], rs, ok)
  {
    hide AcceptExternal, Sort, RefLe, Dedup, Distinct;
    if External(rules, rs, ok).Good? {
      ExternalIsAll(rules, rs, ok);
      SortedMembers(Dedup(rs));
      EachRuleAnswered(rules, Normalized(rs, false).value, ok);
      NormalizedLength(rs);
    }
    if |rs| == |rules| && forall i :: 0 <= i < |rules| ==> Answered(rules[i], rs, ok) {
      var f := Answers(rules, rs, ok);
      NothingElse(f, rs);
      SortedMembers(Dedup(rs));
      NormalizedLength(rs);
      AcceptsAnswers(rules, Sort(Dedup(rs), RefLe), f, ok, |rules|);
      assert rules[..|rules|] == rules;
    }
  }

  lemma NormalizedLength(rs: seq<RecordReference>)
    requires Distinct(rs)
    ensures Dedup(rs) == rs && |Sort(rs, RefLe)| == |rs|
  {
    hide RefLe;
    SortKeeps(rs, RefLe);
  }

  // ----- What is stored comes back -----

  // An Observation is stored exactly when its four sources are named, and comes back.
  lemma ObservationComesBack(n: Naming, s: Storage<Observation>, o: Observation, external: seq<RecordReference>)
    requires Faithful(s, ValidObservation) && ValidObservation(o)
    ensures var b := Build(ObservationEntry(n, s), NoChildren, o, external, []);
            && (b.Good? <==>
                  |external| == 4 && forall i :: 0 <= i < 4 ==> Answered(OBSERVATION_RULES[i], external, n.canonical))
            && (b.Good? ==> Decode(ObservationEntry(n, s), NoChildren, b.value, false) == Good(Decoded(o, [])))
  {
    var e := ObservationEntry(n, s);
    ObservationEntryIsLawful(n, s);
    assert DistinctRules(OBSERVATION_RULES);
    ExternalExactly(OBSERVATION_RULES, external, n.canonical);
    if External(OBSERVATION_RULES, external, n.canonical).Good? { NothingRepeated(e, o, external); }
    if Build(e, NoChildren, o, external, []).Good? {
      RoundTrip(e, NoChildren, o, external, [], false);
    }
  }

  // Sources and external references never collide, so nothing is refused for repetition.
  lemma NothingRepeated<R(!new)>(e: Schema<R, ()>, r: R, external: seq<RecordReference>)
    requires Lawful(e, NoChildren) && External(e.rules, external, e.identityOk).Good?
    requires e.valid(r) && e.firstSlice(r) && Distinct(e.references(r))
    ensures Build(e, NoChildren, r, external, []).Good?
  {
    var accepted := External(e.rules, external, e.identityOk).value;
    ExternalIsAll(e.rules, external, e.identityOk);
    ExternalDistinct(e.rules, external, e.identityOk);
    SortedMembers(e.references(r));
    var source := Sort(e.references(r), RefLe);
    assert Distinct(source + accepted) by {
      forall i, j | 0 <= i < j < |source + accepted| ensures (source + accepted)[i] != (source + accepted)[j] {
        if i < |source| <= j {
          assert source[i] in source && accepted[j - |source|] in accepted;
        }
      }
    }
    assert Sort<()>([], e.childLe) == [] && AllReferences(e, []) == [] && Sort(Dedup([]), RefLe) == [];
    assert source + accepted + [] == source + accepted;
  }

  // An InputBinding needs its RequestUnit and sources that do not repeat.
  lemma BindingComesBack(n: Naming, s: Storage<InputBinding>, b: InputBinding, external: seq<RecordReference>)
    requires Faithful(s, ValidBinding) && ValidBinding(b)
    ensures var o := Build(BindingEntry(n, s), NoChildren, b, external, []);
            && (o.Good? <==>
                  && Distinct(BindingReferences(n, b))
                  && |external| == 1 && Answered(BINDING_RULES[0], external, n.canonical))
            && (o.Good? ==> Decode(BindingEntry(n, s), NoChildren, o.value, false) == Good(Decoded(b, [])))
  {
    var e := BindingEntry(n, s);
    BindingEntryIsLawful(n, s);
    ExternalExactly(BINDING_RULES, external, n.canonical);
    if External(BINDING_RULES, external, n.canonical).Good? && Distinct(BindingReferences(n, b)) {
      NothingRepeated(e, b, external);
    }
    if Build(e, NoChildren, b, external, []).Good? { RoundTrip(e, NoChildren, b, external, [], false); }
  }

  lemma StoredTaskComesBack(n: Naming, s: Storage<Task>, c: Storage<Transition>, t: Task, hs: seq<Transition>)
    requires Faithful(s, ValidTask) && Faithful(c, ValidTransition)
    requires Build(TaskEntry(n, s, c), TaskChildrenOk, t, [], hs).Good?
    ensures Decode(TaskEntry(n, s, c), TaskChildrenOk, Build(TaskEntry(n, s, c), TaskChildrenOk, t, [], hs).value, false)
            == Good(Decoded(t, Sort(hs, TransitionLe)))
  {
    TaskEntryIsLawful(n, s, c);
    RoundTrip(TaskEntry(n, s, c), TaskChildrenOk, t, [], hs, false);
  }

  lemma StoredCallComesBack(n: Naming, s: Storage<ToolCall>, a: Storage<Attempt>, c: ToolCall, xs: seq<Attempt>)
    requires Faithful(s, ValidCall) && Faithful(a, ValidAttempt)
    requires Build(CallEntry(n, s, a), CallChildrenOk, c, [], xs).Good?
    ensures Decode(CallEntry(n, s, a), CallChildrenOk, Build(CallEntry(n, s, a), CallChildrenOk, c, [], xs).value, false)
            == Good(Decoded(c, Sort(xs, AttemptLe)))
  {
    CallEntryIsLawful(n, s, a);
    RoundTrip(CallEntry(n, s, a), CallChildrenOk, c, [], xs, false);
  }

  lemma StoredUnderstandingComesBack(n: Naming, s: Storage<UnderstandingRecord>, c: Storage<AcceptedDelta>,
                                     r: UnderstandingRecord, ds: seq<AcceptedDelta>)
    requires Faithful(s, ValidRecord) && Faithful(c, ValidDelta)
    requires Build(UnderstandingEntry(n, s, c), UnderstandingChildrenOk, r, [], ds).Good?
    ensures var e := UnderstandingEntry(n, s, c);
            Decode(e, UnderstandingChildrenOk, Build(e, UnderstandingChildrenOk, r, [], ds).value, true)
            == Good(Decoded(r, Sort(ds, DeltaLe)))
  {
    UnderstandingEntryIsLawful(n, s, c);
    RoundTrip(UnderstandingEntry(n, s, c), UnderstandingChildrenOk, r, [], ds, true);
  }

  lemma ExternalDistinct(rules: seq<Rule>, rs: seq<RecordReference>, ok: (string, string) -> bool)
    requires DistinctRules(rules) && External(rules, rs, ok).Good?
    ensures Distinct(External(rules, rs, ok).value)
  {
    AcceptedExternal(rules, Normalized(rs, false).value, ok);
    var r := External(rules, rs, ok).value;
    forall i, j | 0 <= i < j < |r| ensures r[i] != r[j] { assert rules[i].relation != rules[j].relation; }
  }
}
