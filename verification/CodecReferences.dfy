// What a stored record's envelope says about it: whose it is and which records it
// names, from the fields of the record alone.

module CodecReferences {
  import opened Records
  import opened Understanding
  import opened Sorting
  import opened Codec
  import opened CodecRecords
  import opened CodecRegistry

  // The references of one relation are the ones to these identities of the target.
  ghost predicate Names(rs: seq<RecordReference>, relation: string, target: string, identities: set<string>) {
    forall y :: y in rs && y.relation == relation <==> y.relation == relation && y.target == target && y.identity in identities
  }

  ghost predicate OnlyNames(rs: seq<RecordReference>, relations: set<string>) { forall y :: y in rs ==> y.relation in relations }

  ghost function Keys(n: Naming, field: string, ids: set<Id>): set<string> { set id | id in ids :: n.Key(field, id) }

  ghost function Sources(o: Option<Id>): set<Id> { if o.Some? then {o.value} else {} }

  // By relation, then by target, then by identity, and no reference twice.
  predicate Precedes(a: RecordReference, b: RecordReference) {
    && TextLe(a.relation, b.relation)
    && (a.relation == b.relation ==>
          && TextLe(a.target, b.target)
          && (a.target == b.target ==> TextLe(a.identity, b.identity) && a.identity != b.identity))
  }

  predicate InOrder(rs: seq<RecordReference>) { forall i, j :: 0 <= i < j < |rs| ==> Precedes(rs[i], rs[j]) }

  lemma SortedInOrder(rs: seq<RecordReference>)
    requires Distinct(rs)
    ensures InOrder(Sort(rs, RefLe))
  {
    hide RefLe, Precedes;
    RefOrder();
    SortSorts(rs, RefLe);
    SortedMembers(rs);
    var sorted := Sort(rs, RefLe);
    forall i, j | 0 <= i < j < |sorted| ensures Precedes(sorted[i], sorted[j]) { OrderedPrecedes(sorted[i], sorted[j]); }
  }

  lemma OrderedPrecedes(a: RecordReference, b: RecordReference)
    requires RefLe(a, b) && a != b
    ensures Precedes(a, b)
  {
    TextLeTotal(a.relation, a.relation);
    TextLeTotal(a.target, a.target);
  }

  // The text of an identity tells which identifier it is.
  lemma KeyTells(n: Naming, field: string, id: Id, other: Id)
    ensures n.Key(field, id) == n.Key(field, other) <==> n.text(id) == n.text(other)
  {
    var front := "[[\"" + field + "\",\"";
    assert n.Key(field, id)[|front|..] == n.text(id) + "\"]]" && n.Key(field, other)[|front|..] == n.text(other) + "\"]]";
    assert (n.text(id) + "\"]]")[..|n.text(id)|] == n.text(id) && (n.text(other) + "\"]]")[..|n.text(other)|] == n.text(other);
  }

  lemma {:induction false} AllReferencesOf<R, C>(s: Schema<R, C>, cs: seq<C>)
    ensures forall y :: y in AllReferences(s, cs) <==> exists i :: 0 <= i < |cs| && y in s.childReferences(cs[i])
  {
    if cs != [] {
      var k := |cs| - 1;
      AllReferencesOf(s, cs[..k]);
      forall y ensures y in AllReferences(s, cs) <==> exists i :: 0 <= i < |cs| && y in s.childReferences(cs[i]) {
        if i :| 0 <= i < |cs| && y in s.childReferences(cs[i]) {
          if i < k { assert cs[..k][i] == cs[i]; }
        }
        if i :| 0 <= i < k && y in s.childReferences(cs[..k][i]) { assert cs[..k][i] == cs[i]; }
      }
    }
  }

  // An envelope refers to what the record, the caller and the children refer to.
  lemma BuiltReferences<R, C>(s: Schema<R, C>, childrenOk: (R, seq<C>) -> bool, r: R, external: seq<RecordReference>, cs: seq<C>)
    requires DistinctRules(s.rules) && Build(s, childrenOk, r, external, cs).Good?
    ensures InOrder(Build(s, childrenOk, r, external, cs).value.references)
    ensures var e := Build(s, childrenOk, r, external, cs).value;
            forall y :: y in e.references <==>
                          || y in s.references(r) || y in external
                          || exists c :: c in cs && y in s.childReferences(c)
  {
    hide RefLe, Sort, Dedup, AllReferences;
    var sorted := Sort(cs, s.childLe);
    ExternalIsAll(s.rules, external, s.identityOk);
    SortKeeps(cs, s.childLe);
    SameMembers(sorted, cs);
    AllReferencesOf(s, sorted);
    SortedMembers(s.references(r));
    SortedMembers(Dedup(AllReferences(s, sorted)));
    var accepted := External(s.rules, external, s.identityOk).value;
    var all := Sort(s.references(r), RefLe) + accepted + Sort(Dedup(AllReferences(s, sorted)), RefLe);
    SortedMembers(Dedup(all));
    SortedInOrder(Dedup(all));
    assert forall c :: c in sorted <==> c in cs;
    assert forall y :: y in AllReferences(s, sorted) <==> exists c :: c in cs && y in s.childReferences(c);
  }

  lemma NamesAll(n: Naming, relation: string, target: string, field: string, ids: seq<Id>)
    ensures forall y :: y in n.Refs(relation, target, field, ids) <==>
                          y.relation == relation && y.target == target && y.identity in Keys(n, field, Elements(ids))
  {
    var rs := n.Refs(relation, target, field, ids);
    forall y ensures y in rs <==> y.relation == relation && y.target == target && y.identity in Keys(n, field, Elements(ids)) {
      if y.relation == relation && y.target == target && y.identity in Keys(n, field, Elements(ids)) {
        var id :| id in Elements(ids) && n.Key(field, id) == y.identity;
        var i :| 0 <= i < |ids| && ids[i] == id;
        assert rs[i] == y;
      }
      if y in rs {
        var i :| 0 <= i < |rs| && rs[i] == y;
        assert ids[i] in Elements(ids);
      }
    }
  }

  // ----- ToolCall -----

  // The Run, Task and RequestUnit the call belongs to, each by its own identity.
  ghost predicate NamesPlace(rs: seq<RecordReference>, n: Naming, runId: Id, taskId: Id, unitId: Id) {
    && Names(rs, "run_id", "agent_run_record", {n.Key("run_id", runId)})
    && Names(rs, "task_id", "task_record", {n.Key("task_id", taskId)})
    && Names(rs, "request_unit_id", "request_unit_record", {n.Key("request_unit_id", unitId)})
  }

  // The manifest, gate and bindings it was authorized with.
  ghost predicate NamesGrounds(rs: seq<RecordReference>, n: Naming, manifestId: Id, gateId: Id, bindings: seq<Id>) {
    && Names(rs, "context_manifest_id", "context_manifest_record", {n.Key("context_manifest_id", manifestId)})
    && Names(rs, "gate_decision_id", "gate_decision_record", {n.Key("gate_decision_id", gateId)})
    && Names(rs, "argument_binding_ref", "input_binding_record", Keys(n, "binding_id", Elements(bindings)))
  }

  const CALL_RELATIONS :=
    {"run_id", "task_id", "request_unit_id", "context_manifest_id", "gate_decision_id", "argument_binding_ref"}

  lemma CallPlace(n: Naming, c: ToolCall)
    ensures NamesPlace(CallReferences(n, c), n, c.runId, c.taskId, c.unitId)
  {
    hide Naming.Key, Keys;
    var rs := CallReferences(n, c);
    assert rs[0] in rs && rs[1] in rs && rs[2] in rs;
  }

  lemma CallGrounds(n: Naming, c: ToolCall)
    ensures NamesGrounds(CallReferences(n, c), n, c.manifestId, c.gateId, c.bindingRefs)
    ensures OnlyNames(CallReferences(n, c), CALL_RELATIONS)
  {
    hide Naming.Key, Keys;
    NamesAll(n, "argument_binding_ref", "input_binding_record", "binding_id", c.bindingRefs);
    var rs := CallReferences(n, c);
    assert rs[3] in rs && rs[4] in rs;
  }

  lemma CallEnvelope(n: Naming, s: Storage<ToolCall>, a: Storage<Attempt>, c: ToolCall, xs: seq<Attempt>)
    requires Build(CallEntry(n, s, a), CallChildrenOk, c, [], xs).Good?
    ensures var e := Build(CallEntry(n, s, a), CallChildrenOk, c, [], xs).value;
            && e.code == "tool_call_record" && e.version == "tool_call_record.p0.v1"
            && e.identity == n.Key("tool_call_id", c.callId) && e.owner == None
            && e.data == s.dump(c) && InOrder(e.references) && |e.children| == |xs|
            && (forall i :: 0 <= i < |xs| ==>
                  var x := Sort(xs, AttemptLe)[i];
                  e.children[i] == ChildPayload("tool_attempt_record", e.identity,
                                                n.Key("tool_call_id", x.callId) + n.Numbered("attempt_no", x.attemptNo),
                                                a.dump(x)))
            && NamesPlace(e.references, n, c.runId, c.taskId, c.unitId)
            && NamesGrounds(e.references, n, c.manifestId, c.gateId, c.bindingRefs)
            && OnlyNames(e.references, CALL_RELATIONS)
  {
    hide InOrder, CallChildrenOk, ValidCall, ValidAttempt, CallReferences, Sort, External, Normalized, Naming.Key, Keys;
    var entry := CallEntry(n, s, a);
    BuiltReferences(entry, CallChildrenOk, c, [], xs);
    CallPlace(n, c);
    CallGrounds(n, c);
    var e := Build(entry, CallChildrenOk, c, [], xs).value;
    assert forall y :: y in e.references <==> y in CallReferences(n, c);
  }

  // The references of a call never repeat, unless a binding does.
  lemma CallReferencesDiffer(n: Naming, c: ToolCall)
    ensures Distinct(CallReferences(n, c)) <==>
              forall i, j :: 0 <= i < j < |c.bindingRefs| ==> n.text(c.bindingRefs[i]) != n.text(c.bindingRefs[j])
  {
    var rs := CallReferences(n, c);
    forall i, j | 0 <= i < j < |c.bindingRefs|
      ensures rs[i + 5] == rs[j + 5] <==> n.text(c.bindingRefs[i]) == n.text(c.bindingRefs[j])
    {
      KeyTells(n, "binding_id", c.bindingRefs[i], c.bindingRefs[j]);
    }
    hide Naming.Key;
    if forall i, j :: 0 <= i < j < |c.bindingRefs| ==> n.text(c.bindingRefs[i]) != n.text(c.bindingRefs[j]) {
      forall i, j | 0 <= i < j < |rs| ensures rs[i] != rs[j] {
        if 5 <= i {
          assert n.text(c.bindingRefs[i - 5]) != n.text(c.bindingRefs[j - 5]);
        }
      }
    }
    if Distinct(rs) {
      forall i, j | 0 <= i < j < |c.bindingRefs| ensures n.text(c.bindingRefs[i]) != n.text(c.bindingRefs[j]) {
        assert rs[i + 5] != rs[j + 5];
      }
    }
  }

  // With no rules nothing but the record, its children and its references can be refused.
  lemma StoredWithoutRules<R, C>(s: Schema<R, C>, childrenOk: (R, seq<C>) -> bool, r: R, cs: seq<C>)
    requires s.rules == [] && !s.collapse
    requires forall y, c :: y in s.references(r) && c in cs ==> y !in s.childReferences(c)
    ensures Build(s, childrenOk, r, [], cs).Good? <==>
              && s.valid(r) && s.firstSlice(r) && Distinct(s.references(r))
              && (forall c :: c in cs ==> s.childValid(c)) && childrenOk(r, cs)
  {
    hide RefLe, Sort, Dedup, AllReferences;
    var sorted := Sort(cs, s.childLe);
    var source, children := Sort(s.references(r), RefLe), Sort(Dedup(AllReferences(s, sorted)), RefLe);
    SortKeeps(cs, s.childLe);
    SameMembers(sorted, cs);
    AllReferencesOf(s, sorted);
    SortedMembers(s.references(r));
    SortedMembers(Dedup(AllReferences(s, sorted)));
    assert |Sort<RecordReference>([], RefLe)| == 0 && Dedup([]) == [];
    assert External(s.rules, [], s.identityOk) == Good([]);
    assert forall c :: c in sorted <==> c in cs;
    if Distinct(s.references(r)) {
      assert Distinct(source + [] + children) by {
        forall i, j | 0 <= i < j < |source + children| ensures (source + children)[i] != (source + children)[j] {
          if i < |source| <= j { assert source[i] in source && children[j - |source|] in children; }
        }
        assert source + [] + children == source + children;
      }
    }
  }

  predicate HasNumber(xs: seq<Attempt>, k: int) { exists x :: x in xs && x.attemptNo == k }

  // A ToolCall is stored exactly with one valid attempt of its own for each number up to its count.
  lemma CallIsStored(n: Naming, s: Storage<ToolCall>, a: Storage<Attempt>, c: ToolCall, xs: seq<Attempt>)
    ensures Build(CallEntry(n, s, a), CallChildrenOk, c, [], xs).Good? <==>
              && c.Valid() && (forall x :: x in xs ==> x.Valid() && x.callId == c.callId)
              && |xs| == c.attemptCount && (forall k :: 1 <= k <= c.attemptCount ==> HasNumber(xs, k))
              && forall i, j :: 0 <= i < j < |c.bindingRefs| ==> n.text(c.bindingRefs[i]) != n.text(c.bindingRefs[j])
  {
    hide CallReferences, Sort, External, Normalized, Naming.Key, ToolCall.Valid, Attempt.Valid, OneTo;
    StoredWithoutRules(CallEntry(n, s, a), CallChildrenOk, c, xs);
    CallReferencesDiffer(n, c);
    NumberedExactly(xs, c.attemptCount);
  }

  // Sorted to 1 .. n: as many attempts as numbers, and one for each.
  lemma NumberedExactly(xs: seq<Attempt>, n: nat)
    ensures Sort(Map(xs, AttemptNumber), IntLe) == OneTo(n) <==>
              |xs| == n && forall k :: 1 <= k <= n ==> HasNumber(xs, k)
  {
    var numbers := Map(xs, AttemptNumber);
    SortKeeps(numbers, IntLe);
    SameMembers(Sort(numbers, IntLe), numbers);
    forall k ensures k in numbers <==> HasNumber(xs, k) {
      if x :| x in xs && x.attemptNo == k {
        var i :| 0 <= i < |xs| && xs[i] == x;
        assert numbers[i] == k;
      }
      if k in numbers {
        var i :| 0 <= i < |numbers| && numbers[i] == k;
        assert xs[i] in xs;
      }
    }
    hide Sort, Map, HasNumber;
    if Sort(numbers, IntLe) == OneTo(n) {
      forall k | 1 <= k <= n ensures k in numbers { assert OneTo(n)[k - 1] == k; }
    }
    if |xs| == n && forall k :: 1 <= k <= n ==> HasNumber(xs, k) { AllNumbers(numbers, n); }
  }

  // n numbers that include 1 .. n are 1 .. n.
  lemma AllNumbers(numbers: seq<int>, n: nat)
    requires |numbers| == n && forall k :: 1 <= k <= n ==> k in numbers
    ensures Sort(numbers, IntLe) == OneTo(n)
  {
    hide Sort;
    var all := OneTo(n);
    forall i, j | 0 <= i < j < n ensures all[i] != all[j] { }
    forall x | x in all ensures x in numbers {
      var i :| 0 <= i < n && all[i] == x;
    }
    CardinalityOfDistinct(all);
    MembersBound(numbers);
    assert MembersOf(all) <= MembersOf(numbers);
    SubsetIsSmaller(MembersOf(all), MembersOf(numbers));
    AllTaken(all, numbers);
    DistinctMultiset(all, numbers);
    SortKeeps(numbers, IntLe);
    SortSorts(numbers, IntLe);
    SortedIsUnique(Sort(numbers, IntLe), all, IntLe);
  }

  // ----- Task -----

  // A Task is stored exactly with valid transitions of its own that lead to different versions.
  lemma TaskIsStored(n: Naming, s: Storage<Task>, c: Storage<Transition>, t: Task, hs: seq<Transition>)
    ensures Build(TaskEntry(n, s, c), TaskChildrenOk, t, [], hs).Good? <==>
              && t.Valid() && (forall h :: h in hs ==> h.Valid() && h.taskId == t.taskId)
              && forall i, j :: 0 <= i < j < |hs| ==> hs[i].result != hs[j].result
  {
    hide Sort, External, Normalized, Naming.Key, Task.Valid, Transition.Valid;
    StoredWithoutRules(TaskEntry(n, s, c), TaskChildrenOk, t, hs);
  }

  // A Task's envelope carries its customer as owner and names the RequestUnits of its transitions.
  lemma TaskEnvelope(n: Naming, s: Storage<Task>, c: Storage<Transition>, t: Task, hs: seq<Transition>)
    requires Build(TaskEntry(n, s, c), TaskChildrenOk, t, [], hs).Good?
    ensures var e := Build(TaskEntry(n, s, c), TaskChildrenOk, t, [], hs).value;
            && e.code == "task_record" && e.version == "task_record.p0.v1"
            && e.identity == n.Key("task_id", t.taskId) && e.owner == Some(t.owner)
            && e.data == s.dump(t) && InOrder(e.references) && |e.children| == |hs|
            && (forall i :: 0 <= i < |hs| ==>
                  var h := Sort(hs, TransitionLe)[i];
                  e.children[i] == ChildPayload("task_state_transition", e.identity,
                                                n.Key("task_id", h.taskId) + n.Key("request_unit_id", h.unitId)
                                                + n.Numbered("result_state_version", h.result), c.dump(h)))
            && Names(e.references, "request_unit_id", "request_unit_record",
                     set h | h in hs :: n.Key("request_unit_id", h.unitId))
            && OnlyNames(e.references, {"request_unit_id"})
  {
    hide InOrder, TaskChildrenOk, ValidTask, ValidTransition, Sort, External, Normalized, Naming.Key;
    BuiltReferences(TaskEntry(n, s, c), TaskChildrenOk, t, [], hs);
  }

  // ----- Observation and InputBinding -----

  // Beside the version it supersedes, an Observation names the four sources it was stored with.
  lemma ObservationEnvelope(n: Naming, s: Storage<Observation>, o: Observation, external: seq<RecordReference>)
    requires Build(ObservationEntry(n, s), NoChildren, o, external, []).Good?
    ensures var e := Build(ObservationEntry(n, s), NoChildren, o, external, []).value;
            && e.code == "observation_record" && e.version == "observation_record.p0.v1"
            && e.identity == n.Key("observation_id", o.observationId) && e.owner == None
            && e.data == s.dump(o) && InOrder(e.references) && e.children == []
            && Names(e.references, "supersedes", "observation_record", Keys(n, "observation_id", Sources(o.supersedes)))
            && forall y :: y in e.references && y.relation != "supersedes" <==> y in external
  {
    hide InOrder, ValidObservation, External, Normalized, Naming.Key, AcceptExternal;
    var entry := ObservationEntry(n, s);
    assert DistinctRules(OBSERVATION_RULES);
    BuiltReferences(entry, NoChildren, o, external, []);
    ExternalIsAll(OBSERVATION_RULES, external, n.canonical);
    assert forall y :: y in external ==> y.relation != "supersedes";
  }

  // An InputBinding names the messages it came from, the version it supersedes and its RequestUnit.
  lemma BindingEnvelope(n: Naming, s: Storage<InputBinding>, b: InputBinding, external: seq<RecordReference>)
    requires Build(BindingEntry(n, s), NoChildren, b, external, []).Good?
    ensures var e := Build(BindingEntry(n, s), NoChildren, b, external, []).value;
            && e.code == "input_binding_record" && e.version == "input_binding_record.p0.v1"
            && e.identity == n.Key("binding_id", b.bindingId) && e.owner == None
            && e.data == s.dump(b) && InOrder(e.references) && e.children == []
            && Names(e.references, "source_ref", "message_record", Keys(n, "message_id", Elements(b.sourceRefs)))
            && Names(e.references, "supersedes", "input_binding_record", Keys(n, "binding_id", Sources(b.supersedes)))
            && forall y :: y in e.references && y.relation != "source_ref" && y.relation != "supersedes" <==> y in external
  {
    hide InOrder, ValidBinding, External, Normalized, Naming.Key, AcceptExternal;
    var entry := BindingEntry(n, s);
    BuiltReferences(entry, NoChildren, b, external, []);
    ExternalIsAll(BINDING_RULES, external, n.canonical);
    NamesAll(n, "source_ref", "message_record", "message_id", b.sourceRefs);
    assert forall y :: y in external ==> y.relation == "request_unit_id";
  }

  // ----- Request understanding -----

  ghost predicate NamesMessages(rs: seq<RecordReference>, n: Naming, r: UnderstandingRecord) {
    && Names(rs, "message_ref", "message_record", {n.Key("message_id", r.messageRef)})
    && Names(rs, "contextualization_resolved_source_ref", "message_record",
             set x | x in r.context.references :: n.Key("message_id", x.sourceRef))
    && Names(rs, "contextualization_source_message_ref", "message_record",
             Keys(n, "message_id", Elements(r.context.sourceRefs)))
    && Names(rs, "task_delta_input_source_ref", "message_record",
             set c, x | c in r.candidates && x in c.inputs :: n.Key("message_id", x.sourceRef))
  }

  lemma {:induction false} InputSourcesOf(cs: seq<DurableCandidate>, m: Id)
    ensures m in InputSources(cs) <==> exists c, x :: c in cs && x in c.inputs && x.sourceRef == m
  {
    if cs != [] {
      var k := |cs| - 1;
      InputSourcesOf(cs[..k], m);
      assert cs == cs[..k] + [cs[k]];
      var last := cs[k].inputs;
      var tail := seq(|last|, i requires 0 <= i < |last| => last[i].sourceRef);
      forall x | x in last ensures x.sourceRef in tail {
        var i :| 0 <= i < |last| && last[i] == x;
        assert tail[i] == x.sourceRef;
      }
    }
  }

  lemma InputNames(n: Naming, cs: seq<DurableCandidate>)
    ensures Keys(n, "message_id", Elements(InputSources(cs)))
            == set c, x | c in cs && x in c.inputs :: n.Key("message_id", x.sourceRef)
  {
    hide Naming.Key, InputSources;
    forall m ensures m in InputSources(cs) <==> exists c, x :: c in cs && x in c.inputs && x.sourceRef == m {
      InputSourcesOf(cs, m);
    }
    var named := set c, x | c in cs && x in c.inputs :: n.Key("message_id", x.sourceRef);
    forall k | k in named ensures k in Keys(n, "message_id", Elements(InputSources(cs))) {
      var c, x :| c in cs && x in c.inputs && k == n.Key("message_id", x.sourceRef);
      assert x.sourceRef in Elements(InputSources(cs));
    }
  }

  lemma ResolvedNames(n: Naming, xs: seq<DurableReference>)
    ensures Keys(n, "message_id", Elements(seq(|xs|, i requires 0 <= i < |xs| => xs[i].sourceRef)))
            == set x | x in xs :: n.Key("message_id", x.sourceRef)
  {
    hide Naming.Key;
    var ids := seq(|xs|, i requires 0 <= i < |xs| => xs[i].sourceRef);
    forall x | x in xs ensures x.sourceRef in Elements(ids) {
      var i :| 0 <= i < |xs| && xs[i] == x;
      assert ids[i] == x.sourceRef;
    }
  }

  const UNDERSTANDING_RELATIONS :=
    {"run_id", "message_ref", "contextualization_resolved_source_ref", "contextualization_source_message_ref",
     "task_delta_input_source_ref"}

  lemma UnderstandingNames(n: Naming, r: UnderstandingRecord)
    ensures var rs := UnderstandingReferences(n, r);
            && Names(rs, "run_id", "agent_run_record", {n.Key("run_id", r.runId)})
            && NamesMessages(rs, n, r) && OnlyNames(rs, UNDERSTANDING_RELATIONS)
  {
    hide Naming.Key, Keys, InputSources, Naming.Refs;
    var xs := r.context.references;
    var resolved := seq(|xs|, i requires 0 <= i < |xs| => xs[i].sourceRef);
    NamesAll(n, "contextualization_resolved_source_ref", "message_record", "message_id", resolved);
    NamesAll(n, "contextualization_source_message_ref", "message_record", "message_id", r.context.sourceRefs);
    NamesAll(n, "task_delta_input_source_ref", "message_record", "message_id", InputSources(r.candidates));
    ResolvedNames(n, xs);
    InputNames(n, r.candidates);
    var rs := UnderstandingReferences(n, r);
    assert n.Ref("run_id", "agent_run_record", "run_id", r.runId) in rs;
    assert n.Ref("message_ref", "message_record", "message_id", r.messageRef) in rs;
  }

  ghost predicate NamesAccepted(rs: seq<RecordReference>, n: Naming, ds: seq<AcceptedDelta>) {
    && Names(rs, "input_binding_ref", "input_binding_record",
             set d, b | d in ds && b in d.bindingRefs :: n.Key("binding_id", b))
    && Names(rs, "accepted_delta_task_id", "task_record", set d | d in ds :: n.Key("task_id", d.taskId))
  }

  lemma DeltaNames(n: Naming, d: AcceptedDelta, y: RecordReference)
    ensures y in n.Refs("input_binding_ref", "input_binding_record", "binding_id", d.bindingRefs)
                 + [n.Ref("accepted_delta_task_id", "task_record", "task_id", d.taskId)]
            <==> || (y.relation == "input_binding_ref" && y.target == "input_binding_record"
                     && exists b :: b in d.bindingRefs && y.identity == n.Key("binding_id", b))
                 || y == RecordReference("accepted_delta_task_id", "task_record", n.Key("task_id", d.taskId))
  {
    hide Naming.Key, Naming.Refs;
    NamesAll(n, "input_binding_ref", "input_binding_record", "binding_id", d.bindingRefs);
    forall b ensures b in d.bindingRefs <==> b in Elements(d.bindingRefs) { }
  }

  // The references of the record and of its children keep apart.
  lemma UnderstandingParts(n: Naming, r: UnderstandingRecord, ds: seq<AcceptedDelta>, all: seq<RecordReference>)
    requires forall y :: y in all <==>
               || y in UnderstandingReferences(n, r)
               || exists d :: d in ds && y in n.Refs("input_binding_ref", "input_binding_record", "binding_id", d.bindingRefs)
                                             + [n.Ref("accepted_delta_task_id", "task_record", "task_id", d.taskId)]
    ensures Names(all, "run_id", "agent_run_record", {n.Key("run_id", r.runId)})
    ensures NamesMessages(all, n, r) && NamesAccepted(all, n, ds)
    ensures OnlyNames(all, UNDERSTANDING_RELATIONS + {"input_binding_ref", "accepted_delta_task_id"})
  {
    hide Naming.Key, Naming.Refs, Keys, UnderstandingReferences;
    UnderstandingNames(n, r);
    forall d, y { DeltaNames(n, d, y); }
    assert forall y :: y in all && y.relation in UNDERSTANDING_RELATIONS <==> y in UnderstandingReferences(n, r);
  }

  // A request understanding names its Run, its message, every message it reads from,
  // and the Tasks and bindings of what it accepted.
  lemma UnderstandingEnvelope(n: Naming, s: Storage<UnderstandingRecord>, c: Storage<AcceptedDelta>, r: UnderstandingRecord,
                              ds: seq<AcceptedDelta>)
    requires Build(UnderstandingEntry(n, s, c), UnderstandingChildrenOk, r, [], ds).Good?
    ensures var e := Build(UnderstandingEntry(n, s, c), UnderstandingChildrenOk, r, [], ds).value;
            && e.code == "request_understanding_record" && e.version == "request_understanding_record.p0.v2"
            && e.identity == n.Key("request_understanding_record_id", r.recordId) && e.owner == None && e.data == s.dump(r)
            && InOrder(e.references) && |e.children| == |ds|
            && (forall i :: 0 <= i < |ds| ==>
                  var d := Sort(ds, DeltaLe)[i];
                  e.children[i] == ChildPayload("accepted_task_delta", e.identity, n.Key("accepted_delta_id", d.deltaId),
                                                c.dump(d)))
            && Names(e.references, "run_id", "agent_run_record", {n.Key("run_id", r.runId)})
            && NamesMessages(e.references, n, r) && NamesAccepted(e.references, n, ds)
            && OnlyNames(e.references, UNDERSTANDING_RELATIONS + {"input_binding_ref", "accepted_delta_task_id"})
  {
    hide InOrder, UnderstandingChildrenOk, ValidRecord, ValidDelta, UnderstandingReferences, Sort, External,
      Normalized, Naming.Key, Naming.Refs, NamesMessages, NamesAccepted, Names, OnlyNames;
    var entry := UnderstandingEntry(n, s, c);
    BuiltReferences(entry, UnderstandingChildrenOk, r, [], ds);
    var e := Build(entry, UnderstandingChildrenOk, r, [], ds).value;
    UnderstandingParts(n, r, ds, e.references);
  }
}
