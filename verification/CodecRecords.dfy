// The child rules of Task, ToolCall and request-understanding records, and the
// encoder and decoder as they run.

module CodecRecords {
  import opened Records
  import opened Understanding
  import opened Sorting
  import opened Codec
  import opened Reducer
  import opened DeltaChains

  // ----- Task: transitions by result version -----

  predicate TaskChildrenOk(t: Task, hs: seq<Transition>) {
    && (forall i, j :: 0 <= i < j < |hs| ==> hs[i].result != hs[j].result)
    && forall h :: h in hs ==> h.taskId == t.taskId
  }

  predicate TransitionLe(a: Transition, b: Transition) {
    a.result < b.result || (a.result == b.result && a.unitId <= b.unitId)
  }

  // ----- ToolCall: attempts 1 to the attempt count -----

  predicate IntLe(a: int, b: int) { a <= b }

  function AttemptNumber(a: Attempt): int { a.attemptNo }

  function OneTo(n: nat): (r: seq<int>)
    ensures |r| == n && forall i :: 0 <= i < n ==> r[i] == i + 1
  {
    seq(n, i => i + 1)
  }

  predicate CallChildrenOk(c: ToolCall, xs: seq<Attempt>) {
    && (forall x :: x in xs ==> x.callId == c.callId)
    && Sort(Map(xs, AttemptNumber), IntLe) == OneTo(c.attemptCount)
  }

  predicate AttemptLe(a: Attempt, b: Attempt) { a.attemptNo <= b.attemptNo }

  // ----- Request understanding: accepted deltas by identity -----

  predicate DeltaLe(a: AcceptedDelta, b: AcceptedDelta) { a.deltaId <= b.deltaId }

  function LinkOf(d: AcceptedDelta): Delta { Delta(d.taskId, d.base, d.result) }

  // The dictionary of children by candidate.
  function ByRef(ds: seq<AcceptedDelta>): (m: map<Id, AcceptedDelta>)
    ensures m.Keys == ChildRefs(ds)
    ensures forall k :: k in m ==> m[k] in ds && m[k].candidateRef == k
  {
    if ds == [] then map[]
    else
      var last, front := ds[|ds| - 1], ByRef(ds[..|ds| - 1]);
      assert ds == ds[..|ds| - 1] + [last];
      front[last.candidateRef := last]
  }

  function Links(ds: map<Id, AcceptedDelta>): map<Id, Delta> { map k | k in ds :: LinkOf(ds[k]) }

  predicate Preserved(r: UnderstandingRecord, d: AcceptedDelta) {
    d.messageRef == r.messageRef && d.acceptedAt == r.createdAt
    && exists c :: c in r.candidates && c.candidateId == d.candidateRef && d.goalText == c.goalPatch
  }

  predicate ExactChildren(r: UnderstandingRecord, ds: seq<AcceptedDelta>) {
    && Distinct(CandidateIds(r.candidates)) && Distinct(DecisionRefs(r.decisions))
    && Elements(DecisionRefs(r.decisions)) == Elements(CandidateIds(r.candidates))
    && (forall i, j :: 0 <= i < j < |ds| ==> ds[i].candidateRef != ds[j].candidateRef && ds[i].deltaId != ds[j].deltaId)
    && ChildRefs(ds) == AcceptedRefs(r.decisions)
    && Distinct(r.acceptedRefs) && Elements(r.acceptedRefs) == ChildIds(ds)
    && forall d :: d in ds ==> Preserved(r, d)
  }

  ghost predicate UnderstandingChildrenOk(r: UnderstandingRecord, ds: seq<AcceptedDelta>) {
    ExactChildren(r, ds) && CodecChains(InOrder(CandidateIds(r.candidates), Links(ByRef(ds))))
  }

  // ----- The three rules forget order and leave no ties -----

  lemma PairwiseForgets<T>(a: seq<T>, b: seq<T>, apart: (T, T) -> bool)
    requires multiset(a) == multiset(b) && forall x, y :: apart(x, y) ==> apart(y, x)
    requires forall i, j :: 0 <= i < j < |a| ==> apart(a[i], a[j])
    ensures forall i, j :: 0 <= i < j < |b| ==> apart(b[i], b[j])
  {
    forall i, j | 0 <= i < j < |b| ensures apart(b[i], b[j]) {
      var x, y := b[i], b[j];
      if x == y {
        TwoPlaces(b, i, j);
        var k, l := FindTwo(a, x);
      } else {
        assert x in multiset(a) && y in multiset(a);
        var k :| 0 <= k < |a| && a[k] == x;
        var l :| 0 <= l < |a| && a[l] == y;
      }
    }
  }

  lemma TwoPlaces<T>(s: seq<T>, i: nat, j: nat)
    requires i < j < |s| && s[i] == s[j]
    ensures multiset(s)[s[i]] >= 2
  {
    assert s == s[..i] + [s[i]] + s[i + 1..j] + [s[j]] + s[j + 1..];
  }

  lemma {:induction false} FindTwo<T>(s: seq<T>, x: T) returns (k: nat, l: nat)
    requires multiset(s)[x] >= 2
    ensures k < l < |s| && s[k] == x && s[l] == x
  {
    var n := |s| - 1;
    assert s == s[..n] + [s[n]];
    if s[n] == x {
      assert x in multiset(s[..n]);
      k :| 0 <= k < n && s[k] == x;
      l := n;
    } else {
      k, l := FindTwo(s[..n], x);
    }
  }

  lemma TaskRuleLawful()
    ensures TotalOrder(TransitionLe)
    ensures forall t, a, b :: multiset(a) == multiset(b) && TaskChildrenOk(t, a) ==> TaskChildrenOk(t, b)
    ensures forall t, a :: TaskChildrenOk(t, a) ==> Strict(a, TransitionLe)
  {
    forall t, a, b | multiset(a) == multiset(b) && TaskChildrenOk(t, a) ensures TaskChildrenOk(t, b) {
      PairwiseForgets(a, b, (x: Transition, y: Transition) => x.result != y.result);
      SameMembers(a, b);
    }
  }

  lemma CallRuleLawful()
    ensures TotalOrder(AttemptLe)
    ensures forall c, a, b :: multiset(a) == multiset(b) && CallChildrenOk(c, a) ==> CallChildrenOk(c, b)
    ensures forall c, a :: CallChildrenOk(c, a) ==> Strict(a, AttemptLe)
  {
    forall c, a, b | multiset(a) == multiset(b) && CallChildrenOk(c, a) ensures CallChildrenOk(c, b) {
      SameMembers(a, b);
      MapKeepsMultiset(a, b, AttemptNumber);
      SortIsCanonical(Map(a, AttemptNumber), Map(b, AttemptNumber), IntLe);
    }
    forall c, a | CallChildrenOk(c, a) ensures Strict(a, AttemptLe) { AttemptsAreDistinct(c, a); }
  }

  lemma AttemptsAreDistinct(c: ToolCall, xs: seq<Attempt>)
    requires CallChildrenOk(c, xs)
    ensures forall i, j :: 0 <= i < j < |xs| ==> xs[i].attemptNo != xs[j].attemptNo
  {
    var numbers := Map(xs, AttemptNumber);
    SortKeeps(numbers, IntLe);
    PairwiseForgets(OneTo(c.attemptCount), numbers, (x: int, y: int) => x != y);
  }

  lemma UnderstandingRuleLawful()
    ensures TotalOrder(DeltaLe)
    ensures forall r, a, b :: multiset(a) == multiset(b) && UnderstandingChildrenOk(r, a) ==> UnderstandingChildrenOk(r, b)
    ensures forall r, a :: UnderstandingChildrenOk(r, a) ==> Strict(a, DeltaLe)
  {
    forall r, a, b | multiset(a) == multiset(b) && UnderstandingChildrenOk(r, a) ensures UnderstandingChildrenOk(r, b) {
      UnderstandingForgets(r, a, b);
    }
  }

  predicate ApartDeltas(x: AcceptedDelta, y: AcceptedDelta) { x.candidateRef != y.candidateRef && x.deltaId != y.deltaId }

  lemma ByRefForgets(a: seq<AcceptedDelta>, b: seq<AcceptedDelta>)
    requires forall x :: x in a <==> x in b
    requires forall i, j :: 0 <= i < j < |a| ==> a[i].candidateRef != a[j].candidateRef
    ensures ByRef(a) == ByRef(b) && ChildRefs(a) == ChildRefs(b) && ChildIds(a) == ChildIds(b)
  {
    forall k | k in ByRef(a) ensures k in ByRef(b) && ByRef(a)[k] == ByRef(b)[k] {
      assert ByRef(a)[k] in a && ByRef(a)[k] in b;
      assert ByRef(b)[k] in a;
    }
    assert ByRef(a).Keys == ByRef(b).Keys;
  }

  lemma UnderstandingForgets(r: UnderstandingRecord, a: seq<AcceptedDelta>, b: seq<AcceptedDelta>)
    requires multiset(a) == multiset(b) && UnderstandingChildrenOk(r, a)
    ensures UnderstandingChildrenOk(r, b)
  {
    hide CodecChains, InOrder, Preserved, ByRef, ChildRefs, ChildIds, Elements, AcceptedRefs;
    PairwiseForgets(a, b, ApartDeltas);
    SameMembers(a, b);
    ByRefForgets(a, b);
  }

  // ----- The encoder as it runs -----

  method AcceptExternalReferences(rules: seq<Rule>, rs: seq<RecordReference>, identityOk: (string, string) -> bool)
    returns (r: Outcome<seq<RecordReference>>)
    ensures r == External(rules, rs, identityOk)
  {
    var normalized := NormalizeReferences(rs, false);
    if normalized.Bad? { return Bad(normalized.category); }
    if |normalized.value| != |rules| { return Bad(LinkCardinality); }
    var accepted: seq<RecordReference> := [];
    for i := 0 to |rules|
      invariant AcceptExternal(rules[..i], normalized.value, identityOk) == Good(accepted)
    {
      AcceptsPrefix(rules, normalized.value, identityOk, i + 1);
      assert rules[..i + 1][..i] == rules[..i];
      var matches := OfRelation(normalized.value, rules[i].relation);
      if |matches| != 1 { return Bad(LinkCardinality); }
      if matches[0].target != rules[i].target { return Bad(LinkProjection); }
      if !identityOk(matches[0].target, matches[0].identity) { return Bad(LinkProjection); }
      accepted := accepted + [matches[0]];
    }
    assert rules[..|rules|] == rules;
    return Good(accepted);
  }

  // The first rule that fails decides.
  lemma {:induction false} AcceptsPrefix(rules: seq<Rule>, normalized: seq<RecordReference>,
                                         identityOk: (string, string) -> bool, i: nat)
    requires i <= |rules|
    ensures AcceptExternal(rules[..i], normalized, identityOk).Bad? ==>
              AcceptExternal(rules, normalized, identityOk) == AcceptExternal(rules[..i], normalized, identityOk)
    decreases |rules|
  {
    if i < |rules| {
      AcceptsPrefix(rules[..|rules| - 1], normalized, identityOk, i);
      assert rules[..|rules| - 1][..i] == rules[..i];
    } else {
      assert rules[..i] == rules;
    }
  }

  // The children as they are stored, and everything they refer to.
  method ChildPayloads<R, C>(s: Schema<R, C>, parent: string, sorted: seq<C>)
    returns (payloads: seq<ChildPayload>, childReferences: seq<RecordReference>)
    ensures payloads == Payloads(s, parent, sorted) && childReferences == AllReferences(s, sorted)
  {
    payloads, childReferences := [], [];
    for i := 0 to |sorted|
      invariant |payloads| == i && forall k :: 0 <= k < i ==> payloads[k] == PayloadOf(s, parent, sorted[k])
      invariant childReferences == AllReferences(s, sorted[..i])
    {
      assert sorted[..i + 1][..i] == sorted[..i];
      childReferences := childReferences + s.childReferences(sorted[i]);
      payloads := payloads + [PayloadOf(s, parent, sorted[i])];
    }
    assert sorted[..|sorted|] == sorted;
  }

  // The common path of both builders; `ok` is what the record's child rule answered.
  method BuildEnvelope<R, C>(s: Schema<R, C>, ghost childrenOk: (R, seq<C>) -> bool, r: R, external: seq<RecordReference>,
                             cs: seq<C>, ok: bool) returns (o: Outcome<Envelope>)
    requires ok <==> childrenOk(r, cs)
    ensures o == Build(s, childrenOk, r, external, cs)
  {
    if !s.valid(r) { return Bad(PayloadInvalid); }
    if !s.firstSlice(r) { return Bad(LinkCardinality); }
    var source := NormalizeReferences(s.references(r), false);
    if source.Bad? { return Bad(source.category); }
    var accepted := AcceptExternalReferences(s.rules, external, s.identityOk);
    if accepted.Bad? { return Bad(accepted.category); }
    for i := 0 to |cs|
      invariant forall k :: 0 <= k < i ==> s.childValid(cs[k])
    {
      assert cs[i] in cs;
      if !s.childValid(cs[i]) { return Bad(ChildMismatch); }
    }
    if !ok { return Bad(ChildMismatch); }
    var sorted := Sort(cs, s.childLe);
    var payloads, childReferences := ChildPayloads(s, s.identity(r), sorted);
    var children := NormalizeReferences(childReferences, true);
    var references := NormalizeReferences(source.value + accepted.value + children.value, s.collapse);
    assert source.value == Sort(s.references(r), RefLe);
    if references.Bad? { return Bad(references.category); }
    return Good(Envelope(s.code, s.version, s.identity(r), s.owner(r), references.value, s.dump(r), payloads));
  }

  method EncodeTask(s: Schema<Task, Transition>, t: Task, external: seq<RecordReference>, hs: seq<Transition>)
    returns (o: Outcome<Envelope>)
    ensures o == Build(s, TaskChildrenOk, t, external, hs)
  {
    o := BuildEnvelope(s, TaskChildrenOk, t, external, hs, TaskChildrenOk(t, hs));
  }

  method EncodeToolCall(s: Schema<ToolCall, Attempt>, c: ToolCall, external: seq<RecordReference>, xs: seq<Attempt>)
    returns (o: Outcome<Envelope>)
    ensures o == Build(s, CallChildrenOk, c, external, xs)
  {
    o := BuildEnvelope(s, CallChildrenOk, c, external, xs, CallChildrenOk(c, xs));
  }

  method UnderstandingRule(r: UnderstandingRecord, ds: seq<AcceptedDelta>) returns (ok: bool)
    ensures ok <==> UnderstandingChildrenOk(r, ds)
  {
    if !ExactChildren(r, ds) { return false; }
    ok := CodecAccepts(CandidateIds(r.candidates), Links(ByRef(ds)));
  }

  method EncodeUnderstanding(s: Schema<UnderstandingRecord, AcceptedDelta>, r: UnderstandingRecord,
                             external: seq<RecordReference>, ds: seq<AcceptedDelta>) returns (o: Outcome<Envelope>)
    ensures o == Build(s, UnderstandingChildrenOk, r, external, ds)
  {
    var ok := UnderstandingRule(r, ds);
    o := BuildEnvelope(s, UnderstandingChildrenOk, r, external, ds, ok);
  }

  // ----- The versioned decoder as it runs -----

  method LoadPayloads<R, C>(s: Schema<R, C>, ps: seq<ChildPayload>) returns (r: Option<seq<C>>)
    ensures r == LoadChildren(s, ps)
  {
    var children: seq<C> := [];
    for i := 0 to |ps|
      invariant LoadChildren(s, ps[..i]) == Some(children)
    {
      assert ps[..i + 1][..i] == ps[..i];
      LoadsPrefix(s, ps, i + 1);
      if ps[i].code != s.childCode { return None; }
      var child := s.childLoad(ps[i].data);
      if child.None? { return None; }
      children := children + [child.value];
    }
    assert ps[..|ps|] == ps;
    return Some(children);
  }

  lemma {:induction false} LoadsPrefix<R, C>(s: Schema<R, C>, ps: seq<ChildPayload>, i: nat)
    requires i <= |ps|
    ensures LoadChildren(s, ps[..i]).None? ==> LoadChildren(s, ps).None?
    decreases |ps|
  {
    if i < |ps| {
      LoadsPrefix(s, ps[..|ps| - 1], i);
      assert ps[..|ps| - 1][..i] == ps[..i];
    } else {
      assert ps[..i] == ps;
    }
  }

  // No external reference belongs to a request-understanding record.
  method DecodeUnderstanding(s: Schema<UnderstandingRecord, AcceptedDelta>, e: Envelope)
    returns (o: Outcome<Decoded<UnderstandingRecord, AcceptedDelta>>)
    requires s.rules == []
    ensures o == Decode(s, UnderstandingChildrenOk, e, true)
  {
    if e.code != s.code || e.version != s.version { return Bad(MetadataMismatch); }
    var record := s.load(e.data);
    if record.None? { return Bad(PayloadInvalid); }
    var children := LoadPayloads(s, e.children);
    if children.None? { return Bad(ChildMismatch); }
    NoneExternal(s.rules, e.references);
    var expected := EncodeUnderstanding(s, record.value, [], children.value);
    if expected.Bad? { return Bad(expected.category); }
    if expected.value.identity != e.identity { return Bad(IdentityMismatch); }
    if expected.value.owner != e.owner { return Bad(OwnerMismatch); }
    if expected.value.references != e.references { return Bad(LinkProjection); }
    if expected.value.data != e.data { return Bad(PayloadInvalid); }
    if expected.value.children != e.children { return Bad(ChildMismatch); }
    return Good(Decoded(record.value, children.value));
  }

  lemma {:induction false} NoneExternal(rules: seq<Rule>, rs: seq<RecordReference>)
    requires rules == []
    ensures ExternalOf(rules, rs) == []
  {
    if rs != [] { NoneExternal(rules, rs[..|rs| - 1]); }
  }
}
