// Three loops check that accepted Task deltas form a version chain: the reducer
// before it commits, the codec when it encodes, and the evidence closure when
// it reads back.  Each is a different condition on the same per-Task chain.

module DeltaChains {
  import opened Records

  datatype Delta = Delta(task: Id, base: Option<nat>, result: nat)

  // Accepted children in the order of the candidates they answer.
  function InOrder(candidates: seq<Id>, children: map<Id, Delta>): seq<Delta> {
    if candidates == [] then []
    else
      var last := candidates[|candidates| - 1];
      var front := InOrder(candidates[..|candidates| - 1], children);
      if last in children then front + [children[last]] else front
  }

  // The deltas of one Task.
  function Of(ds: seq<Delta>, task: Id): (r: seq<Delta>)
    ensures |r| <= |ds|
  {
    if ds == [] then []
    else
      var last := ds[|ds| - 1];
      var front := Of(ds[..|ds| - 1], task);
      if last.task == task then front + [last] else front
  }

  // ----- The declarative chain -----

  // Each base is the previous result and each result is one more.
  predicate Linked(c: seq<Delta>) {
    forall i, j | 0 <= i < |c| && i < j < |c| :: j == i + 1 ==>
      c[j].base == Some(c[i].result) && c[j].result == c[i].result + 1
  }

  predicate StartsFresh(c: seq<Delta>) { c != [] ==> c[0].base.None? }

  predicate StartsSteady(c: seq<Delta>) { c != [] && c[0].base.Some? ==> c[0].result == c[0].base.value + 1 }

  predicate StartsCounted(c: seq<Delta>) {
    c != [] ==> c[0].result == if c[0].base.None? then 1 else c[0].base.value + 1
  }

  predicate Fits(c: seq<Delta>, version: nat) { forall d :: d in c ==> d.result <= version }

  predicate ReducerOk(c: seq<Delta>) { Linked(c) && StartsFresh(c) }

  predicate CodecOk(c: seq<Delta>) { Linked(c) && StartsSteady(c) }

  predicate EvidenceOk(c: seq<Delta>, version: Option<nat>) {
    Linked(c) && StartsCounted(c) && (version.Some? ==> Fits(c, version.value))
  }

  function VersionOf(versions: map<Id, nat>, t: Id): Option<nat> {
    if t in versions then Some(versions[t]) else None
  }

  ghost predicate ReducerChains(ds: seq<Delta>) { forall t: Id :: ReducerOk(Of(ds, t)) }

  ghost predicate CodecChains(ds: seq<Delta>) { forall t: Id :: CodecOk(Of(ds, t)) }

  ghost predicate EvidenceChains(ds: seq<Delta>, versions: map<Id, nat>) {
    forall t: Id :: EvidenceOk(Of(ds, t), VersionOf(versions, t))
  }

  // Whatever the reducer or the evidence closure accepts, the codec accepts.
  lemma CodecAcceptsReducer(ds: seq<Delta>)
    requires ReducerChains(ds)
    ensures CodecChains(ds)
  {
    forall t: Id ensures CodecOk(Of(ds, t)) { assert ReducerOk(Of(ds, t)); }
  }

  lemma CodecAcceptsEvidence(ds: seq<Delta>, versions: map<Id, nat>)
    requires EvidenceChains(ds, versions)
    ensures CodecChains(ds)
  {
    forall t: Id ensures CodecOk(Of(ds, t)) { assert EvidenceOk(Of(ds, t), VersionOf(versions, t)); }
  }

  predicate BeyondCodec(c: seq<Delta>, version: Option<nat>) {
    && (c != [] && c[0].base.None? ==> c[0].result == 1)
    && (version.Some? ==> Fits(c, version.value))
  }

  // Evidence asks exactly this much more than the codec.
  lemma EvidenceBeyondCodec(ds: seq<Delta>, versions: map<Id, nat>)
    ensures EvidenceChains(ds, versions) <==>
              CodecChains(ds) && forall t: Id :: BeyondCodec(Of(ds, t), VersionOf(versions, t))
  {
    forall t: Id
      ensures EvidenceOk(Of(ds, t), VersionOf(versions, t))
              <==> CodecOk(Of(ds, t)) && BeyondCodec(Of(ds, t), VersionOf(versions, t))
    {
    }
  }

  // A first delta may skip versions without the reducer or the codec noticing; evidence always notices.
  lemma FirstResultLeftOpen(d: Delta, versions: map<Id, nat>)
    requires d.base.None? && d.result != 1
    ensures ReducerChains([d]) && CodecChains([d]) && !EvidenceChains([d], versions)
  {
    forall t: Id ensures Of([d], t) == if t == d.task then [d] else [] {
      assert [d][..0] == [];
      assert Of([], t) == [];
    }
    hide Of;
    assert !StartsCounted(Of([d], d.task));
    assert !EvidenceOk(Of([d], d.task), VersionOf(versions, d.task));
  }

  // ----- Prefixes -----

  lemma OfGrows(ds: seq<Delta>, d: Delta, task: Id)
    ensures Of(ds + [d], task) == Of(ds, task) + if d.task == task then [d] else []
  {
    assert (ds + [d])[..|ds + [d]| - 1] == ds;
  }

  lemma {:induction false} OfPrefix(ds: seq<Delta>, n: nat, task: Id)
    requires n <= |ds|
    ensures Of(ds[..n], task) <= Of(ds, task)
  {
    if n < |ds| {
      OfPrefix(ds[..|ds| - 1], n, task);
      assert ds[..|ds| - 1][..n] == ds[..n];
    } else {
      assert ds[..n] == ds;
    }
  }

  lemma InOrderGrows(candidates: seq<Id>, children: map<Id, Delta>, i: nat)
    requires i < |candidates|
    ensures InOrder(candidates[..i + 1], children)
            == if candidates[i] in children then InOrder(candidates[..i], children) + [children[candidates[i]]]
               else InOrder(candidates[..i], children)
  {
    assert candidates[..i + 1][..i] == candidates[..i];
  }

  lemma {:induction false} InOrderPrefix(candidates: seq<Id>, children: map<Id, Delta>, i: nat)
    requires i <= |candidates|
    ensures InOrder(candidates[..i], children) <= InOrder(candidates, children)
    decreases |candidates| - i
  {
    if i < |candidates| {
      InOrderGrows(candidates, children, i);
      InOrderPrefix(candidates, children, i + 1);
    } else {
      assert candidates[..i] == candidates;
    }
  }

  // What the loops remember: the last result of every Task seen so far.
  ghost predicate Remembers(ds: seq<Delta>, last: map<Id, nat>) {
    forall t: Id :: (t in last <==> Of(ds, t) != []) && (t in last ==> last[t] == Of(ds, t)[|Of(ds, t)| - 1].result)
  }

  lemma RemembersMore(ds: seq<Delta>, last: map<Id, nat>, d: Delta)
    requires Remembers(ds, last)
    ensures Remembers(ds + [d], last[d.task := d.result])
  {
    forall t: Id
      ensures var last' := last[d.task := d.result];
              (t in last' <==> Of(ds + [d], t) != [])
              && (t in last' ==> last'[t] == Of(ds + [d], t)[|Of(ds + [d], t)| - 1].result)
    {
      OfGrows(ds, d, t);
    }
  }

  // Whether the next delta continues the chain its Task already has.
  predicate Continues(last: map<Id, nat>, d: Delta)
    requires d.task in last
  {
    d.base == Some(last[d.task]) && d.result == last[d.task] + 1
  }

  lemma LinkedGrows(c: seq<Delta>, d: Delta)
    ensures Linked(c + [d]) <==> Linked(c) && (c != [] ==> d.base == Some(c[|c| - 1].result) && d.result == c[|c| - 1].result + 1)
  {
    if Linked(c + [d]) {
      forall i, j | 0 <= i < |c| && i < j < |c|
        ensures j == i + 1 ==> c[j].base == Some(c[i].result) && c[j].result == c[i].result + 1
      {
        assert (c + [d])[i] == c[i] && (c + [d])[j] == c[j];
      }
      if c != [] {
        var k := |c| - 1;
        assert (c + [d])[k] == c[k] && (c + [d])[|c|] == d;
      }
    }
  }

  lemma BadPrefixIsBad(c: seq<Delta>, whole: seq<Delta>)
    requires c <= whole
    ensures Linked(whole) ==> Linked(c)
    ensures c != [] ==> whole != [] && whole[0] == c[0]
    ensures forall v: nat :: Fits(whole, v) ==> Fits(c, v)
  {
    if Linked(whole) {
      forall i, j | 0 <= i < |c| && i < j < |c|
        ensures j == i + 1 ==> c[j].base == Some(c[i].result) && c[j].result == c[i].result + 1
      {
        assert c[i] == whole[i] && c[j] == whole[j];
      }
    }
    forall v: nat | Fits(whole, v) ensures Fits(c, v) {
      forall d | d in c ensures d.result <= v { assert d in whole; }
    }
  }

  // Appending a delta leaves every other Task's chain alone.
  lemma OnlyItsTask(ds: seq<Delta>, d: Delta, t: Id)
    ensures t != d.task ==> Of(ds + [d], t) == Of(ds, t)
    ensures Of(ds + [d], d.task) == Of(ds, d.task) + [d]
  {
    OfGrows(ds, d, t);
    OfGrows(ds, d, d.task);
  }

  // Whether d continues a chain that is not empty.
  predicate Follows(c: seq<Delta>, d: Delta)
    requires c != []
  {
    d.base == Some(c[|c| - 1].result) && d.result == c[|c| - 1].result + 1
  }

  lemma ReducerOkGrows(c: seq<Delta>, d: Delta)
    requires ReducerOk(c)
    ensures ReducerOk(c + [d]) <==> if c != [] then Follows(c, d) else d.base.None?
  {
    LinkedGrows(c, d);
  }

  lemma CodecOkGrows(c: seq<Delta>, d: Delta)
    requires CodecOk(c)
    ensures CodecOk(c + [d])
            <==> if c != [] then Follows(c, d) else d.base.Some? ==> d.result == d.base.value + 1
  {
    LinkedGrows(c, d);
  }

  lemma EvidenceOkGrows(c: seq<Delta>, d: Delta, version: nat)
    requires EvidenceOk(c, Some(version))
    ensures EvidenceOk(c + [d], Some(version))
            <==> && d.result <= version
                 && if c != [] then Follows(c, d) else d.result == if d.base.None? then 1 else d.base.value + 1
  {
    LinkedGrows(c, d);
    FitsGrows(c, d, version);
  }

  lemma RemembersOne(ds: seq<Delta>, last: map<Id, nat>, d: Delta)
    requires Remembers(ds, last)
    ensures d.task in last <==> Of(ds, d.task) != []
    ensures d.task in last ==> (Continues(last, d) <==> Follows(Of(ds, d.task), d))
  {
  }

  lemma ReducerStep(ds: seq<Delta>, last: map<Id, nat>, d: Delta)
    requires Remembers(ds, last) && ReducerChains(ds)
    ensures ReducerChains(ds + [d]) <==> if d.task in last then Continues(last, d) else d.base.None?
  {
    hide ReducerOk, Remembers, Of, Follows, Continues;
    forall t: Id ensures ReducerOk(Of(ds, t)) && (t != d.task ==> Of(ds + [d], t) == Of(ds, t)) {
      OnlyItsTask(ds, d, t);
    }
    OnlyItsTask(ds, d, d.task);
    RemembersOne(ds, last, d);
    ReducerOkGrows(Of(ds, d.task), d);
  }

  lemma CodecStep(ds: seq<Delta>, last: map<Id, nat>, d: Delta)
    requires Remembers(ds, last) && CodecChains(ds)
    ensures CodecChains(ds + [d])
            <==> if d.task in last then Continues(last, d) else d.base.Some? ==> d.result == d.base.value + 1
  {
    hide CodecOk, Remembers, Of, Follows, Continues;
    forall t: Id ensures CodecOk(Of(ds, t)) && (t != d.task ==> Of(ds + [d], t) == Of(ds, t)) {
      OnlyItsTask(ds, d, t);
    }
    OnlyItsTask(ds, d, d.task);
    RemembersOne(ds, last, d);
    CodecOkGrows(Of(ds, d.task), d);
  }

  lemma EvidenceStep(ds: seq<Delta>, last: map<Id, nat>, d: Delta, versions: map<Id, nat>)
    requires Remembers(ds, last) && EvidenceChains(ds, versions) && d.task in versions
    ensures EvidenceChains(ds + [d], versions)
            <==> && d.result <= versions[d.task]
                 && if d.task in last then Continues(last, d)
                    else d.result == if d.base.None? then 1 else d.base.value + 1
  {
    hide EvidenceOk, Remembers, Of, Follows, Continues;
    forall t: Id
      ensures EvidenceOk(Of(ds, t), VersionOf(versions, t)) && (t != d.task ==> Of(ds + [d], t) == Of(ds, t))
    {
      OnlyItsTask(ds, d, t);
    }
    OnlyItsTask(ds, d, d.task);
    RemembersOne(ds, last, d);
    EvidenceOkGrows(Of(ds, d.task), d, versions[d.task]);
  }

  lemma FitsGrows(c: seq<Delta>, d: Delta, version: nat)
    ensures Fits(c + [d], version) <==> Fits(c, version) && d.result <= version
  {
    if Fits(c + [d], version) {
      forall x | x in c ensures x.result <= version { assert x in c + [d]; }
      assert d in c + [d];
    }
  }

  lemma PrefixOf(ds: seq<Delta>, whole: seq<Delta>, t: Id)
    requires ds <= whole
    ensures Of(ds, t) <= Of(whole, t)
  {
    OfPrefix(whole, |ds|, t);
    assert whole[..|ds|] == ds;
  }

  lemma PrefixChains(ds: seq<Delta>, whole: seq<Delta>, versions: map<Id, nat>)
    requires ds <= whole
    ensures ReducerChains(whole) ==> ReducerChains(ds)
    ensures CodecChains(whole) ==> CodecChains(ds)
    ensures EvidenceChains(whole, versions) ==> EvidenceChains(ds, versions)
  {
    forall t: Id
      ensures ReducerOk(Of(whole, t)) ==> ReducerOk(Of(ds, t))
      ensures CodecOk(Of(whole, t)) ==> CodecOk(Of(ds, t))
      ensures EvidenceOk(Of(whole, t), VersionOf(versions, t)) ==> EvidenceOk(Of(ds, t), VersionOf(versions, t))
    {
      PrefixOf(ds, whole, t);
      BadPrefixIsBad(Of(ds, t), Of(whole, t));
    }
  }

  // ----- The three loops -----

  // The reducer's durable closure check: a first delta starts from nothing.
  method ReducerAccepts(candidates: seq<Id>, children: map<Id, Delta>) returns (ok: bool)
    ensures ok <==> ReducerChains(InOrder(candidates, children))
  {
    hide ReducerChains, Remembers;
    var last: map<Id, nat> := map[];
    NothingYet();
    for i := 0 to |candidates|
      invariant ReducerChains(InOrder(candidates[..i], children))
      invariant Remembers(InOrder(candidates[..i], children), last)
    {
      ghost var ds := InOrder(candidates[..i], children);
      InOrderGrows(candidates, children, i);
      InOrderPrefix(candidates, children, i + 1);
      if candidates[i] !in children { continue; }
      var child := children[candidates[i]];
      ReducerStep(ds, last, child);
      RemembersMore(ds, last, child);
      if child.task !in last {
        if child.base.Some? { PrefixChains(ds + [child], InOrder(candidates, children), map[]); return false; }
      } else if child.base != Some(last[child.task]) || child.result != last[child.task] + 1 {
        PrefixChains(ds + [child], InOrder(candidates, children), map[]);
        return false;
      }
      last := last[child.task := child.result];
    }
    assert candidates[..|candidates|] == candidates;
    return true;
  }

  // The codec's child check: a first base, when there is one, counts too.
  method CodecAccepts(candidates: seq<Id>, children: map<Id, Delta>) returns (ok: bool)
    ensures ok <==> CodecChains(InOrder(candidates, children))
  {
    hide CodecChains, Remembers;
    var last: map<Id, nat> := map[];
    NothingYet();
    for i := 0 to |candidates|
      invariant CodecChains(InOrder(candidates[..i], children))
      invariant Remembers(InOrder(candidates[..i], children), last)
    {
      ghost var ds := InOrder(candidates[..i], children);
      InOrderGrows(candidates, children, i);
      InOrderPrefix(candidates, children, i + 1);
      if candidates[i] !in children { continue; }
      var child := children[candidates[i]];
      CodecStep(ds, last, child);
      RemembersMore(ds, last, child);
      if child.task !in last {
        if child.base.Some? && child.result != child.base.value + 1 {
          PrefixChains(ds + [child], InOrder(candidates, children), map[]);
          return false;
        }
      } else if child.base != Some(last[child.task]) || child.result != child.base.value + 1 {
        PrefixChains(ds + [child], InOrder(candidates, children), map[]);
        return false;
      }
      last := last[child.task := child.result];
    }
    assert candidates[..|candidates|] == candidates;
    return true;
  }

  // The evidence closure's check, against the current Task versions.
  method EvidenceAccepts(candidates: seq<Id>, children: map<Id, Delta>, versions: map<Id, nat>) returns (ok: bool)
    requires forall c :: c in children ==> children[c].task in versions
    ensures ok <==> EvidenceChains(InOrder(candidates, children), versions)
  {
    hide EvidenceChains, Remembers;
    var last: map<Id, nat> := map[];
    NothingYet();
    NoEvidenceYet(versions);
    for i := 0 to |candidates|
      invariant EvidenceChains(InOrder(candidates[..i], children), versions)
      invariant Remembers(InOrder(candidates[..i], children), last)
    {
      ghost var ds := InOrder(candidates[..i], children);
      InOrderGrows(candidates, children, i);
      InOrderPrefix(candidates, children, i + 1);
      if candidates[i] !in children { continue; }
      var child := children[candidates[i]];
      EvidenceStep(ds, last, child, versions);
      RemembersMore(ds, last, child);
      var expected: nat;
      if child.task !in last {
        expected := if child.base.None? then 1 else child.base.value + 1;
      } else {
        if child.base != Some(last[child.task]) {
          PrefixChains(ds + [child], InOrder(candidates, children), versions);
          return false;
        }
        expected := last[child.task] + 1;
      }
      if child.result != expected || versions[child.task] < child.result {
        PrefixChains(ds + [child], InOrder(candidates, children), versions);
        return false;
      }
      last := last[child.task := child.result];
    }
    assert candidates[..|candidates|] == candidates;
    return true;
  }

  lemma NothingYet()
    ensures ReducerChains([]) && CodecChains([]) && Remembers([], map[])
  {
  }

  lemma NoEvidenceYet(versions: map<Id, nat>)
    ensures EvidenceChains([], versions)
  {
  }
}
