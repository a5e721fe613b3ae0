// Expanding references along `supersedes`, in whatever order a set is walked.

module Supersedes {
  import opened Records

  datatype Expansion = Expanded(refs: set<Id>) | Unresolved | Cyclic

  // Each record of the closure and the record it supersedes.
  type Chains = map<Id, Option<Id>>

  // The record k supersedes-steps behind `start`.
  function Follow(records: Chains, start: Id, k: nat): Option<Id> {
    if k == 0 then Some(start)
    else match Follow(records, start, k - 1)
      case None => None
      case Some(n) => if n in records then records[n] else None
  }

  ghost predicate Reached(records: Chains, initial: set<Id>, n: Id) {
    exists a: Id, k: nat :: a in initial && Follow(records, a, k) == Some(n)
  }

  ghost predicate OnCycle(records: Chains, n: Id) { exists k: nat :: 0 < k && Follow(records, n, k) == Some(n) }

  // Every reference resolves and no chain comes back to itself.
  ghost predicate Sound(records: Chains, initial: set<Id>) {
    forall n :: Reached(records, initial, n) ==> n in records && !OnCycle(records, n)
  }

  predicate ClosedUnder(records: Chains, refs: set<Id>) {
    forall n :: n in refs && n in records && records[n].Some? ==> records[n].value in refs
  }

  lemma {:induction false} FollowAdds(records: Chains, a: Id, b: Id, i: nat, j: nat)
    requires Follow(records, a, i) == Some(b)
    ensures Follow(records, a, i + j) == Follow(records, b, j)
  {
    if j > 0 { FollowAdds(records, a, b, i, j - 1); }
  }

  lemma {:induction false} FollowPrefix(records: Chains, a: Id, i: nat, j: nat)
    requires i <= j && Follow(records, a, j).Some?
    ensures Follow(records, a, i).Some?
  {
    if i < j { FollowPrefix(records, a, i, j - 1); }
  }

  // A chain that comes back never ends.
  lemma {:induction false} CycleNeverEnds(records: Chains, n: Id, k: nat, m: nat)
    requires 0 < k && Follow(records, n, k) == Some(n)
    ensures Follow(records, n, m).Some?
  {
    if m <= k {
      FollowPrefix(records, n, m, k);
    } else {
      CycleNeverEnds(records, n, k, m - k);
      FollowAdds(records, n, n, k, m - k);
    }
  }

  ghost predicate Ends(records: Chains, n: Id) { exists m: nat :: Follow(records, n, m).None? }

  lemma EndingIsAcyclic(records: Chains, n: Id)
    requires Ends(records, n)
    ensures !OnCycle(records, n)
  {
    if OnCycle(records, n) {
      var k: nat :| 0 < k && Follow(records, n, k) == Some(n);
      var m: nat :| Follow(records, n, m).None?;
      CycleNeverEnds(records, n, k, m);
    }
  }

  // The least closed set: everything reached, and nothing a closed superset could do without.
  lemma {:induction false} FollowStays(records: Chains, refs: set<Id>, a: Id, k: nat)
    requires a in refs && ClosedUnder(records, refs) && Follow(records, a, k).Some?
    ensures Follow(records, a, k).value in refs
  {
    if k > 0 { FollowStays(records, refs, a, k - 1); }
  }

  lemma ReachedIsLeast(records: Chains, initial: set<Id>, refs: set<Id>, other: set<Id>)
    requires forall n :: n in refs <==> Reached(records, initial, n)
    requires initial <= other && ClosedUnder(records, other)
    ensures initial <= refs && ClosedUnder(records, refs) && refs <= other
  {
    forall a | a in initial ensures a in refs { assert Follow(records, a, 0) == Some(a); }
    forall n | n in refs && n in records && records[n].Some? ensures records[n].value in refs {
      var a: Id, k: nat :| a in initial && Follow(records, a, k) == Some(n);
      assert Follow(records, a, k + 1) == records[n];
    }
    forall n | n in refs ensures n in other {
      var a: Id, k: nat :| a in initial && Follow(records, a, k) == Some(n);
      FollowStays(records, other, a, k);
    }
  }

  ghost predicate Explored(records: Chains, initial: set<Id>, refs: set<Id>) {
    && ClosedUnder(records, refs)
    && forall n :: n in refs ==> n in records && Reached(records, initial, n) && Ends(records, n)
  }

  // The trail is the chain from `start`, record by record; all of it resolves.
  ghost predicate Trail(records: Chains, start: Id, trail: seq<Id>) {
    forall i: nat :: i < |trail| ==> trail[i] in records && Follow(records, start, i) == Some(trail[i])
  }

  ghost function Elements(trail: seq<Id>): set<Id> { set n | n in trail }

  // When the chain stops at its end or at explored ground, the trail joins it.
  lemma TrailExplored(records: Chains, initial: set<Id>, refs: set<Id>, start: Id, trail: seq<Id>)
    requires Explored(records, initial, refs) && start in initial && Trail(records, start, trail)
    requires var stop := Follow(records, start, |trail|); stop.None? || stop.value in refs
    ensures Explored(records, initial, refs + Elements(trail))
  {
    hide Follow, Reached, Ends, Trail;
    var m: nat := EndOfChain(records, initial, refs, start, |trail|);
    forall i: nat | i < |trail|
      ensures trail[i] in records && Reached(records, initial, trail[i]) && Ends(records, trail[i])
      ensures records[trail[i]].Some? ==> records[trail[i]].value in refs + Elements(trail)
    {
      OnTrail(records, initial, refs, start, trail, m, i);
    }
  }

  lemma OnTrail(records: Chains, initial: set<Id>, refs: set<Id>, start: Id, trail: seq<Id>, m: nat, i: nat)
    requires start in initial && Trail(records, start, trail) && i < |trail| <= m && Follow(records, start, m).None?
    requires var stop := Follow(records, start, |trail|); stop.None? || stop.value in refs
    ensures trail[i] in records && Reached(records, initial, trail[i]) && Ends(records, trail[i])
    ensures records[trail[i]].Some? ==> records[trail[i]].value in refs + Elements(trail)
  {
    hide Follow;
    FollowAdds(records, start, trail[i], i, m - i);
    StepOfTrail(records, start, trail, i);
  }

  lemma StepOfTrail(records: Chains, start: Id, trail: seq<Id>, i: nat)
    requires Trail(records, start, trail) && i < |trail|
    ensures i + 1 < |trail| ==> records[trail[i]] == Some(trail[i + 1])
    ensures i + 1 == |trail| ==> records[trail[i]] == Follow(records, start, |trail|)
  {
    assert Follow(records, start, i + 1) == records[trail[i]];
  }

  lemma EndOfChain(records: Chains, initial: set<Id>, refs: set<Id>, start: Id, steps: nat) returns (m: nat)
    requires Explored(records, initial, refs)
    requires var stop := Follow(records, start, steps); stop.None? || stop.value in refs
    ensures steps <= m && Follow(records, start, m).None?
  {
    match Follow(records, start, steps)
    case None => m := steps;
    case Some(n) =>
      var k: nat :| Follow(records, n, k).None?;
      FollowAdds(records, start, n, steps, k);
      m := steps + k;
  }

  lemma ComesBack(records: Chains, initial: set<Id>, start: Id, trail: seq<Id>, n: Id)
    requires start in initial && Trail(records, start, trail) && n in trail
    requires Follow(records, start, |trail|) == Some(n)
    ensures Reached(records, initial, n) && OnCycle(records, n)
  {
    var i: nat :| i < |trail| && trail[i] == n;
    FollowAdds(records, start, n, i, |trail| - i);
  }

  lemma AllReached(records: Chains, initial: set<Id>, refs: set<Id>)
    requires Explored(records, initial, refs) && initial <= refs
    ensures Sound(records, initial)
    ensures forall n :: n in refs <==> Reached(records, initial, n)
  {
    forall n | Reached(records, initial, n) ensures n in refs && !OnCycle(records, n) {
      var a: Id, k: nat :| a in initial && Follow(records, a, k) == Some(n);
      FollowStays(records, refs, a, k);
      EndingIsAcyclic(records, n);
    }
  }

  // Expanded exactly when everything reached is sound, and then to exactly what is reached.
  method Expand(initial: set<Id>, records: Chains) returns (r: Expansion)
    ensures r.Expanded? <==> Sound(records, initial)
    ensures r.Expanded? ==> forall n :: n in r.refs <==> Reached(records, initial, n)
    ensures r.Unresolved? ==> exists n :: Reached(records, initial, n) && n !in records
    ensures r.Cyclic? ==> exists n :: Reached(records, initial, n) && OnCycle(records, n)
  {
    var reachable: set<Id>, pending := {}, initial;
    while pending != {}
      invariant pending <= initial && initial - pending <= reachable
      invariant Explored(records, initial, reachable)
      decreases pending
    {
      var start :| start in pending;
      pending := pending - {start};
      var path: set<Id>, current := {}, Some(start);
      ghost var trail: seq<Id> := [];
      while current.Some? && current.value !in reachable
        invariant Trail(records, start, trail) && path == Elements(trail) <= records.Keys
        invariant current == Follow(records, start, |trail|)
        invariant trail != [] ==> start in path
        decreases records.Keys - path
      {
        if current.value in path {
          ComesBack(records, initial, start, trail, current.value);
          return Cyclic;
        }
        if current.value !in records {
          assert Reached(records, initial, current.value);
          return Unresolved;
        }
        trail := trail + [current.value];
        path := path + {current.value};
        current := records[current.value];
        StepOfTrail(records, start, trail, |trail| - 1);
      }
      TrailExplored(records, initial, reachable, start, trail);
      reachable := reachable + path;
    }
    AllReached(records, initial, reachable);
    return Expanded(reachable);
  }
}
