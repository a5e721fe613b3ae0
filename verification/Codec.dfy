// The persistence codec: a record, its logical children and its external
// references become one canonical envelope, and back.

module Codec {
  import opened Records
  import opened Proposals
  import opened Sorting

  datatype Category =
    | LinkCardinality | LinkProjection | ChildMismatch | PayloadInvalid | IdentityMismatch | OwnerMismatch
    | MetadataMismatch

  datatype Outcome<+T> = Good(value: T) | Bad(category: Category)

  // Relation, target record code and the canonical text of the target's identity.
  datatype RecordReference = RecordReference(relation: string, target: string, identity: string)

  datatype Rule = Rule(relation: string, target: string)

  datatype ChildPayload = ChildPayload(code: string, parentIdentity: string, identity: string, data: Json)

  datatype Envelope = Envelope(
    code: string, version: string, identity: string, owner: Option<string>, references: seq<RecordReference>,
    data: Json, children: seq<ChildPayload>)

  // One registry entry: how a record and its children are projected, dumped and
  // validated again.  `load` accepts every payload the record model accepts.
  datatype Schema<!R, !C> = Schema(
    code: string, version: string, valid: R -> bool, identity: R -> string, owner: R -> Option<string>,
    firstSlice: R -> bool, references: R -> seq<RecordReference>, rules: seq<Rule>, identityOk: (string, string) -> bool,
    dump: R -> Json, load: Json -> Option<R>,
    childCode: string, childValid: C -> bool, childIdentity: C -> string, childReferences: C -> seq<RecordReference>,
    childDump: C -> Json, childLoad: Json -> Option<C>, childLe: (C, C) -> bool, collapse: bool)

  // ----- References -----

  predicate RefLe(a: RecordReference, b: RecordReference) {
    || (a.relation != b.relation && TextLe(a.relation, b.relation))
    || (a.relation == b.relation && a.target != b.target && TextLe(a.target, b.target))
    || (a.relation == b.relation && a.target == b.target && TextLe(a.identity, b.identity))
  }

  lemma RefOrder()
    ensures TotalOrder(RefLe)
    ensures forall s: seq<RecordReference> :: Strict(s, RefLe)
  {
    forall a: RecordReference, b: RecordReference ensures RefLe(a, b) || RefLe(b, a) ensures RefLe(a, b) && RefLe(b, a) ==> a == b {
      TextLeTotal(a.relation, b.relation);
      TextLeTotal(a.target, b.target);
      TextLeTotal(a.identity, b.identity);
    }
    forall a: RecordReference, b: RecordReference, c: RecordReference | RefLe(a, b) && RefLe(b, c) ensures RefLe(a, c) {
      RefLeTransitive(a, b, c);
    }
  }

  lemma RefLeTransitive(a: RecordReference, b: RecordReference, c: RecordReference)
    requires RefLe(a, b) && RefLe(b, c)
    ensures RefLe(a, c)
  {
    TextLeTotal(a.relation, b.relation);
    TextLeTotal(b.relation, c.relation);
    TextLeTotal(a.target, b.target);
    TextLeTotal(b.target, c.target);
    if a.relation != b.relation && b.relation != c.relation {
      TextLeTransitive(a.relation, b.relation, c.relation);
    } else if a.relation == b.relation == c.relation {
      if a.target != b.target && b.target != c.target {
        TextLeTransitive(a.target, b.target, c.target);
      } else if a.target == b.target == c.target {
        TextLeTransitive(a.identity, b.identity, c.identity);
      }
    }
  }

  // First occurrences only: what a dictionary keeps.
  function Dedup(rs: seq<RecordReference>): (r: seq<RecordReference>)
    ensures Distinct(r) && forall x :: x in r <==> x in rs
    ensures Distinct(rs) ==> r == rs
  {
    if rs == [] then []
    else
      var last, front := rs[|rs| - 1], Dedup(rs[..|rs| - 1]);
      assert rs == rs[..|rs| - 1] + [last];
      if last in front then front else front + [last]
  }

  function Normalized(rs: seq<RecordReference>, collapse: bool): Outcome<seq<RecordReference>> {
    if !collapse && !Distinct(rs) then Bad(LinkCardinality) else Good(Sort(Dedup(rs), RefLe))
  }

  method NormalizeReferences(rs: seq<RecordReference>, collapse: bool) returns (r: Outcome<seq<RecordReference>>)
    ensures r == Normalized(rs, collapse)
  {
    hide RefLe, Sort;
    var keys: set<RecordReference>, byKey: seq<RecordReference> := {}, [];
    for i := 0 to |rs|
      invariant byKey == Dedup(rs[..i]) && keys == set x | x in byKey
      invariant collapse || Distinct(rs[..i])
    {
      assert rs[..i + 1][..i] == rs[..i];
      if rs[i] in keys && !collapse {
        NotDistinct(rs, i);
        return Bad(LinkCardinality);
      }
      if rs[i] !in keys { byKey, keys := byKey + [rs[i]], keys + {rs[i]}; }
    }
    assert rs[..|rs|] == rs;
    return Good(Sort(byKey, RefLe));
  }

  lemma NotDistinct(rs: seq<RecordReference>, i: nat)
    requires i < |rs| && rs[i] in rs[..i]
    ensures !Distinct(rs)
  {
    var k :| 0 <= k < i && rs[..i][k] == rs[i];
    assert rs[k] == rs[i];
  }

  lemma DistinctMultiset<T>(a: seq<T>, b: seq<T>)
    requires Distinct(a) && Distinct(b) && forall x :: x in a <==> x in b
    ensures multiset(a) == multiset(b)
  {
    forall x ensures multiset(a)[x] == multiset(b)[x] {
      CountDistinct(a, x);
      CountDistinct(b, x);
    }
  }

  lemma {:induction false} CountDistinct<T>(s: seq<T>, x: T)
    requires Distinct(s)
    ensures multiset(s)[x] == if x in s then 1 else 0
  {
    if s != [] {
      var k := |s| - 1;
      CountDistinct(s[..k], x);
      assert s == s[..k] + [s[k]];
      assert s[k] !in s[..k];
    }
  }

  // Canonical: only which references there are matters.
  lemma NormalizedBySet(a: seq<RecordReference>, b: seq<RecordReference>)
    requires forall x :: x in a <==> x in b
    ensures Sort(Dedup(a), RefLe) == Sort(Dedup(b), RefLe)
  {
    RefOrder();
    DistinctMultiset(Dedup(a), Dedup(b));
    SortIsCanonical(Dedup(a), Dedup(b), RefLe);
  }

  lemma SameMultisetSameDistinct<T>(a: seq<T>, b: seq<T>)
    requires multiset(a) == multiset(b) && Distinct(a)
    ensures Distinct(b)
  {
    forall i, j | 0 <= i < j < |b| ensures b[i] != b[j] {
      if b[i] == b[j] {
        assert b == b[..i] + [b[i]] + b[i + 1..j] + [b[j]] + b[j + 1..];
        assert multiset(b)[b[i]] >= 2;
        CountDistinct(a, b[i]);
      }
    }
  }

  lemma NormalizedForgetsOrder(a: seq<RecordReference>, b: seq<RecordReference>, collapse: bool)
    requires multiset(a) == multiset(b)
    ensures Normalized(a, collapse) == Normalized(b, collapse)
  {
    SameMembers(a, b);
    NormalizedBySet(a, b);
    if Distinct(a) { SameMultisetSameDistinct(a, b); }
    if Distinct(b) { SameMultisetSameDistinct(b, a); }
  }

  lemma SortedMembers(rs: seq<RecordReference>)
    ensures forall x :: x in Sort(rs, RefLe) <==> x in rs
    ensures Distinct(rs) ==> Distinct(Sort(rs, RefLe))
  {
    SortKeeps(rs, RefLe);
    SameMembers(Sort(rs, RefLe), rs);
    if Distinct(rs) { SameMultisetSameDistinct(rs, Sort(rs, RefLe)); }
  }

  // ----- External references -----

  function OfRelation(rs: seq<RecordReference>, relation: string): (r: seq<RecordReference>)
    ensures forall x :: x in r <==> x in rs && x.relation == relation
  {
    if rs == [] then []
    else
      var last, front := rs[|rs| - 1], OfRelation(rs[..|rs| - 1], relation);
      assert rs == rs[..|rs| - 1] + [last];
      if last.relation == relation then front + [last] else front
  }

  function AcceptExternal(rules: seq<Rule>, normalized: seq<RecordReference>, identityOk: (string, string) -> bool):
    Outcome<seq<RecordReference>>
  {
    if rules == [] then Good([])
    else
      var front := AcceptExternal(rules[..|rules| - 1], normalized, identityOk);
      var rule := rules[|rules| - 1];
      var matches := OfRelation(normalized, rule.relation);
      if front.Bad? then front
      else if |matches| != 1 then Bad(LinkCardinality)
      else if matches[0].target != rule.target then Bad(LinkProjection)
      else if !identityOk(matches[0].target, matches[0].identity) then Bad(LinkProjection)
      else Good(front.value + [matches[0]])
  }

  function External(rules: seq<Rule>, rs: seq<RecordReference>, identityOk: (string, string) -> bool): Outcome<seq<RecordReference>> {
    match Normalized(rs, false)
    case Bad(c) => Bad(c)
    case Good(normalized) =>
      if |normalized| != |rules| then Bad(LinkCardinality) else AcceptExternal(rules, normalized, identityOk)
  }

  predicate InRules(rules: seq<Rule>, relation: string) { exists i :: 0 <= i < |rules| && rules[i].relation == relation }

  predicate DistinctRules(rules: seq<Rule>) {
    forall i, j :: 0 <= i < j < |rules| ==> rules[i].relation != rules[j].relation
  }

  // What is accepted is one given reference per rule.
  lemma {:induction false} AcceptedExternal(rules: seq<Rule>, normalized: seq<RecordReference>, identityOk: (string, string) -> bool)
    requires AcceptExternal(rules, normalized, identityOk).Good?
    ensures var r := AcceptExternal(rules, normalized, identityOk).value;
            && |r| == |rules|
            && forall i :: 0 <= i < |rules| ==> r[i] in normalized && r[i].relation == rules[i].relation
  {
    if rules != [] {
      AcceptedExternal(rules[..|rules| - 1], normalized, identityOk);
      var rule := rules[|rules| - 1];
      var matches := OfRelation(normalized, rule.relation);
      assert matches[0] in matches;
    }
  }

  ghost function MembersOf<T>(s: seq<T>): set<T> { set x | x in s }

  // n distinct members of n distinct references are all of them.
  lemma AllTaken<T>(a: seq<T>, b: seq<T>)
    requires Distinct(a) && Distinct(b) && |a| == |b| && forall x :: x in a ==> x in b
    ensures forall x :: x in a <==> x in b
  {
    var sa, sb := MembersOf(a), MembersOf(b);
    CardinalityOfDistinct(a);
    CardinalityOfDistinct(b);
    assert sa <= sb && |sa| == |sb|;
    SubsetSameSize(sa, sb);
    assert forall x :: x in sb <==> x in b;
  }

  lemma {:induction false} CardinalityOfDistinct<T>(a: seq<T>)
    requires Distinct(a)
    ensures |MembersOf(a)| == |a|
  {
    if a != [] {
      var k := |a| - 1;
      CardinalityOfDistinct(a[..k]);
      assert a == a[..k] + [a[k]];
      assert MembersOf(a) == MembersOf(a[..k]) + {a[k]};
    }
  }

  lemma SubsetSameSize<T>(a: set<T>, b: set<T>)
    requires a <= b && |a| == |b|
    ensures a == b
  {
    assert a - b == {} && a * b == a && a + b == b;
    assert |b - a| == 0;
  }

  lemma ExternalIsAll(rules: seq<Rule>, rs: seq<RecordReference>, identityOk: (string, string) -> bool)
    requires DistinctRules(rules) && External(rules, rs, identityOk).Good?
    ensures Distinct(rs)
    ensures forall x :: x in External(rules, rs, identityOk).value <==> x in rs
    ensures forall x :: x in rs ==> InRules(rules, x.relation)
  {
    var normalized := Normalized(rs, false).value;
    var accepted := External(rules, rs, identityOk).value;
    SortedMembers(Dedup(rs));
    AcceptedExternal(rules, normalized, identityOk);
    forall i, j | 0 <= i < j < |accepted| ensures accepted[i] != accepted[j] {
      assert rules[i].relation != rules[j].relation;
    }
    forall x | x in accepted ensures x in normalized && InRules(rules, x.relation) {
      var i :| 0 <= i < |accepted| && accepted[i] == x;
      assert rules[i].relation == x.relation;
    }
    AllTaken(accepted, normalized);
  }

  lemma ExternalForgetsOrder(rules: seq<Rule>, a: seq<RecordReference>, b: seq<RecordReference>, identityOk: (string, string) -> bool)
    requires multiset(a) == multiset(b)
    ensures External(rules, a, identityOk) == External(rules, b, identityOk)
  {
    NormalizedForgetsOrder(a, b, false);
  }

  // ----- Encoding -----

  function AllReferences<R, C>(s: Schema<R, C>, cs: seq<C>): seq<RecordReference> {
    if cs == [] then [] else AllReferences(s, cs[..|cs| - 1]) + s.childReferences(cs[|cs| - 1])
  }

  function PayloadOf<R, C>(s: Schema<R, C>, parent: string, c: C): ChildPayload {
    ChildPayload(s.childCode, parent, s.childIdentity(c), s.childDump(c))
  }

  function Payloads<R, C>(s: Schema<R, C>, parent: string, cs: seq<C>): (r: seq<ChildPayload>)
    ensures |r| == |cs| && forall i :: 0 <= i < |cs| ==> r[i] == PayloadOf(s, parent, cs[i])
  {
    seq(|cs|, i requires 0 <= i < |cs| => PayloadOf(s, parent, cs[i]))
  }

  // `childrenOk` is the rule of the record code for a parent and its children.
  ghost function Build<R, C>(s: Schema<R, C>, childrenOk: (R, seq<C>) -> bool, r: R, external: seq<RecordReference>,
                             cs: seq<C>): Outcome<Envelope>
  {
    if !s.valid(r) then Bad(PayloadInvalid)
    else if !s.firstSlice(r) then Bad(LinkCardinality)
    else if !Distinct(s.references(r)) then Bad(LinkCardinality)
    else
      match External(s.rules, external, s.identityOk)
      case Bad(c) => Bad(c)
      case Good(accepted) =>
        if (exists c :: c in cs && !s.childValid(c)) || !childrenOk(r, cs) then Bad(ChildMismatch)
        else
          var sorted := Sort(cs, s.childLe);
          var childReferences := Sort(Dedup(AllReferences(s, sorted)), RefLe);
          match Normalized(Sort(s.references(r), RefLe) + accepted + childReferences, s.collapse)
          case Bad(c) => Bad(c)
          case Good(references) =>
            Good(Envelope(s.code, s.version, s.identity(r), s.owner(r), references, s.dump(r),
                          Payloads(s, s.identity(r), sorted)))
  }

  // ----- Decoding -----

  function LoadChildren<R, C>(s: Schema<R, C>, ps: seq<ChildPayload>): Option<seq<C>> {
    if ps == [] then Some([])
    else
      var front, last := LoadChildren(s, ps[..|ps| - 1]), ps[|ps| - 1];
      if front.None? || last.code != s.childCode || s.childLoad(last.data).None? then None
      else Some(front.value + [s.childLoad(last.data).value])
  }

  function ExternalOf(rules: seq<Rule>, rs: seq<RecordReference>): (r: seq<RecordReference>)
    ensures forall x :: x in r <==> x in rs && InRules(rules, x.relation)
    ensures Distinct(rs) ==> Distinct(r)
  {
    if rs == [] then []
    else
      var last, front := rs[|rs| - 1], ExternalOf(rules, rs[..|rs| - 1]);
      assert rs == rs[..|rs| - 1] + [last];
      if InRules(rules, last.relation) then front + [last] else front
  }

  datatype Decoded<R, C> = Decoded(record: R, children: seq<C>)

  // Rebuild from what was loaded and compare.  Only the versioned decoder also
  // compares the payload data itself.
  ghost function Decode<R, C>(s: Schema<R, C>, childrenOk: (R, seq<C>) -> bool, e: Envelope, comparesData: bool):
    Outcome<Decoded<R, C>>
  {
    if e.code != s.code || e.version != s.version then Bad(MetadataMismatch)
    else if s.load(e.data).None? then Bad(PayloadInvalid)
    else if LoadChildren(s, e.children).None? then Bad(ChildMismatch)
    else
      var r, cs := s.load(e.data).value, LoadChildren(s, e.children).value;
      match Build(s, childrenOk, r, ExternalOf(s.rules, e.references), cs)
      case Bad(c) => Bad(c)
      case Good(expected) =>
        if expected.identity != e.identity then Bad(IdentityMismatch)
        else if expected.owner != e.owner then Bad(OwnerMismatch)
        else if expected.references != e.references then Bad(LinkProjection)
        else if comparesData && expected.data != e.data then Bad(PayloadInvalid)
        else if expected.children != e.children then Bad(ChildMismatch)
        else Good(Decoded(r, cs))
  }

  // ----- What a registry entry has to provide -----

  ghost predicate Lawful<R(!new), C(!new)>(s: Schema<R, C>, childrenOk: (R, seq<C>) -> bool) {
    && (forall r :: s.valid(r) ==> s.load(s.dump(r)) == Some(r))
    && (forall c :: s.childValid(c) ==> s.childLoad(s.childDump(c)) == Some(c))
    && TotalOrder(s.childLe) && DistinctRules(s.rules)
    && (forall r, cs, ds :: multiset(cs) == multiset(ds) && childrenOk(r, cs) ==> childrenOk(r, ds))
    && (forall r, cs :: childrenOk(r, cs) ==> Strict(cs, s.childLe))
    && (forall r, x :: x in s.references(r) ==> !InRules(s.rules, x.relation))
    && (forall c, x :: x in s.childReferences(c) ==> !InRules(s.rules, x.relation))
  }

  // ----- Canonical encoding -----

  // Neither the order of children nor that of external references shows.
  lemma EncodingForgetsOrder<R(!new), C(!new)>(s: Schema<R, C>, childrenOk: (R, seq<C>) -> bool, r: R,
    external: seq<RecordReference>, external': seq<RecordReference>, cs: seq<C>, cs': seq<C>)
    requires Lawful(s, childrenOk) && multiset(external) == multiset(external') && multiset(cs) == multiset(cs')
    ensures Build(s, childrenOk, r, external, cs) == Build(s, childrenOk, r, external', cs')
  {
    ExternalForgetsOrder(s.rules, external, external', s.identityOk);
    SameMembers(cs, cs');
    if childrenOk(r, cs) { SortIsCanonical(cs, cs', s.childLe); }
    assert childrenOk(r, cs) <==> childrenOk(r, cs');
  }

  lemma {:induction false} ReferencesOfChildren<R, C>(s: Schema<R, C>, cs: seq<C>, x: RecordReference)
    requires forall c, x :: c in cs && x in s.childReferences(c) ==> !InRules(s.rules, x.relation)
    requires x in AllReferences(s, cs)
    ensures !InRules(s.rules, x.relation)
  {
    var k := |cs| - 1;
    if x in s.childReferences(cs[k]) {
      assert cs[k] in cs;
    } else {
      ReferencesOfChildren(s, cs[..k], x);
    }
  }

  // The external references can be told from the others by their relation.
  lemma ExternalSurvives<R(!new), C(!new)>(s: Schema<R, C>, childrenOk: (R, seq<C>) -> bool, r: R,
                                           external: seq<RecordReference>, cs: seq<C>)
    requires Lawful(s, childrenOk) && Build(s, childrenOk, r, external, cs).Good?
    ensures multiset(ExternalOf(s.rules, Build(s, childrenOk, r, external, cs).value.references)) == multiset(external)
  {
    var e := Build(s, childrenOk, r, external, cs).value;
    var accepted := External(s.rules, external, s.identityOk).value;
    var sorted := Sort(cs, s.childLe);
    var source, children := Sort(s.references(r), RefLe), Sort(Dedup(AllReferences(s, sorted)), RefLe);
    ExternalIsAll(s.rules, external, s.identityOk);
    SortedMembers(s.references(r));
    SortedMembers(Dedup(AllReferences(s, sorted)));
    SortedMembers(Dedup(source + accepted + children));
    forall x | x in children ensures !InRules(s.rules, x.relation) { ReferencesOfChildren(s, sorted, x); }
    var kept := ExternalOf(s.rules, e.references);
    assert forall x :: x in kept <==> x in external;
    DistinctMultiset(kept, external);
  }

  lemma {:induction false} LoadsBack<R(!new), C(!new)>(s: Schema<R, C>, parent: string, cs: seq<C>)
    requires forall c :: c in cs ==> s.childLoad(s.childDump(c)) == Some(c)
    ensures LoadChildren(s, Payloads(s, parent, cs)) == Some(cs)
  {
    var ps := Payloads(s, parent, cs);
    if cs != [] {
      var k := |cs| - 1;
      assert forall c :: c in cs[..k] ==> c in cs;
      assert cs[k] in cs;
      LoadsBack(s, parent, cs[..k]);
      assert ps[..k] == Payloads(s, parent, cs[..k]);
      assert cs == cs[..k] + [cs[k]];
    }
  }

  // Decoding an encoding gives the record back, its children in canonical order.
  lemma RoundTrip<R(!new), C(!new)>(s: Schema<R, C>, childrenOk: (R, seq<C>) -> bool, r: R,
                                    external: seq<RecordReference>, cs: seq<C>, comparesData: bool)
    requires Lawful(s, childrenOk) && Build(s, childrenOk, r, external, cs).Good?
    ensures Decode(s, childrenOk, Build(s, childrenOk, r, external, cs).value, comparesData)
            == Good(Decoded(r, Sort(cs, s.childLe)))
  {
    var e, sorted := Build(s, childrenOk, r, external, cs).value, Sort(cs, s.childLe);
    SortKeeps(cs, s.childLe);
    SameMembers(sorted, cs);
    LoadsBack(s, s.identity(r), sorted);
    ExternalSurvives(s, childrenOk, r, external, cs);
    EncodingForgetsOrder(s, childrenOk, r, external, ExternalOf(s.rules, e.references), cs, sorted);
  }

  // An envelope the comparing decoder accepts is the encoding of what it decodes to.
  lemma AcceptedIsCanonical<R, C>(s: Schema<R, C>, childrenOk: (R, seq<C>) -> bool, e: Envelope)
    requires Decode(s, childrenOk, e, true).Good?
    ensures var d := Decode(s, childrenOk, e, true).value;
            Build(s, childrenOk, d.record, ExternalOf(s.rules, e.references), d.children) == Good(e)
  {
  }

  // What the other decoder accepts differs from an encoding at most in how the record's data is written.
  lemma AcceptedUpToData<R, C>(s: Schema<R, C>, childrenOk: (R, seq<C>) -> bool, e: Envelope)
    requires Decode(s, childrenOk, e, false).Good?
    ensures var d := Decode(s, childrenOk, e, false).value;
            && Build(s, childrenOk, d.record, ExternalOf(s.rules, e.references), d.children)
               == Good(e.(data := s.dump(d.record)))
            && s.load(e.data) == Some(d.record)
            && (Decode(s, childrenOk, e, true).Good? <==> e.data == s.dump(d.record))
  {
  }

  // It accepts exactly the envelopes that the comparing decoder accepts once their data is written canonically.
  lemma AcceptedExactly<R(!new), C(!new)>(s: Schema<R, C>, childrenOk: (R, seq<C>) -> bool, e: Envelope)
    requires Lawful(s, childrenOk)
    ensures Decode(s, childrenOk, e, false).Good? <==>
              && s.load(e.data).Some? && s.valid(s.load(e.data).value)
              && Decode(s, childrenOk, e.(data := s.dump(s.load(e.data).value)), true).Good?
  {
    hide External, Normalized, LoadChildren, ExternalOf, Payloads, AllReferences;
  }

  // Every spelling that loads as the record is accepted for it, by this decoder only.
  lemma OtherSpellingIsAccepted<R(!new), C(!new)>(s: Schema<R, C>, childrenOk: (R, seq<C>) -> bool, r: R,
                                                  external: seq<RecordReference>, cs: seq<C>, data: Json)
    requires Lawful(s, childrenOk) && Build(s, childrenOk, r, external, cs).Good? && s.load(data) == Some(r)
    ensures var e := Build(s, childrenOk, r, external, cs).value.(data := data);
            && Decode(s, childrenOk, e, false) == Good(Decoded(r, Sort(cs, s.childLe)))
            && (Decode(s, childrenOk, e, true).Good? <==> data == s.dump(r))
  {
    hide Build, LoadChildren, ExternalOf;
    var e := Build(s, childrenOk, r, external, cs).value;
    RoundTrip(s, childrenOk, r, external, cs, false);
    BuiltData(s, childrenOk, r, ExternalOf(s.rules, e.references), Sort(cs, s.childLe));
  }

  lemma BuiltData<R, C>(s: Schema<R, C>, childrenOk: (R, seq<C>) -> bool, r: R, external: seq<RecordReference>, cs: seq<C>)
    requires Build(s, childrenOk, r, external, cs).Good?
    ensures s.valid(r) && Build(s, childrenOk, r, external, cs).value.data == s.dump(r)
  {
  }
}
