// The Task version a ContextManifest names.  The check looks at the transition
// into that version and the one after it only.

module VersionInForce {
  import opened Records

  // The complete history of a Task as the evidence closure demands it.
  predicate CompleteHistory(task: Task, hs: seq<Transition>) {
    && task.version == |hs| + 1
    && (forall i :: 0 <= i < |hs| ==> hs[i].result == i + 2)
    && (hs == [] ==> task.status.TaskActive?)
    && (hs != [] ==>
          && hs[0].from.TaskActive? && task.createdAt <= hs[0].changedAt
          && hs[|hs| - 1].to == task.status && hs[|hs| - 1].changedAt == task.updatedAt)
    && (forall i, j | 0 <= i < |hs| && i < j < |hs| :: j == i + 1 ==>
          hs[i].to == hs[j].from && hs[i].changedAt <= hs[j].changedAt)
  }

  // The first transition with the given result version.
  function FindResult(hs: seq<Transition>, version: nat): (r: Option<Transition>)
    ensures r.Some? ==> r.value in hs && r.value.result == version
    ensures r.None? ==> forall h :: h in hs ==> h.result != version
  {
    if hs == [] then None
    else if hs[0].result == version then Some(hs[0])
    else
      assert hs == [hs[0]] + hs[1..];
      FindResult(hs[1..], version)
  }

  predicate Accepted(task: Task, hs: seq<Transition>, version: nat, assembledAt: Time) {
    var effective :=
      if version == 1 then Some(task.createdAt)
      else match FindResult(hs, version) case Some(h) => Some(h.changedAt) case None => None;
    var following := FindResult(hs, version + 1);
    effective.Some? && effective.value <= assembledAt
    && !(following.Some? && following.value.changedAt <= assembledAt)
  }

  // When a version came into force.
  function EffectiveAt(task: Task, hs: seq<Transition>, version: nat): Time
    requires 1 <= version <= |hs| + 1
  {
    if version == 1 then task.createdAt else hs[version - 2].changedAt
  }

  // The greatest version whose time had come.
  predicate InForce(task: Task, hs: seq<Transition>, version: nat, at: Time) {
    && 1 <= version <= |hs| + 1
    && EffectiveAt(task, hs, version) <= at
    && forall w: nat :: version < w <= |hs| + 1 ==> at < EffectiveAt(task, hs, w)
  }

  lemma {:induction false} TimesGrow(task: Task, hs: seq<Transition>, v: nat, w: nat)
    requires CompleteHistory(task, hs) && 1 <= v <= w <= |hs| + 1
    ensures EffectiveAt(task, hs, v) <= EffectiveAt(task, hs, w)
    decreases w
  {
    if v < w {
      TimesGrow(task, hs, v, w - 1);
      if 2 < w { assert hs[w - 3].changedAt <= hs[w - 2].changedAt; }
    }
  }

  lemma FindsVersion(task: Task, hs: seq<Transition>, version: nat)
    requires CompleteHistory(task, hs)
    ensures FindResult(hs, version)
            == if 2 <= version <= |hs| + 1 then Some(hs[version - 2]) else None
  {
    if 2 <= version <= |hs| + 1 { assert hs[version - 2] in hs; }
  }

  // Looking at two transitions is enough: the check holds exactly of the version in force.
  lemma AcceptedIsInForce(task: Task, hs: seq<Transition>, version: nat, at: Time)
    requires CompleteHistory(task, hs)
    ensures Accepted(task, hs, version, at) <==> InForce(task, hs, version, at)
  {
    FindsVersion(task, hs, version);
    FindsVersion(task, hs, version + 1);
    if InForce(task, hs, version, at) && version <= |hs| {
      assert at < EffectiveAt(task, hs, version + 1);
    }
    if Accepted(task, hs, version, at) {
      forall w: nat | version < w <= |hs| + 1 ensures at < EffectiveAt(task, hs, w) {
        TimesGrow(task, hs, version + 1, w);
      }
    }
  }

  lemma InForceIsUnique(task: Task, hs: seq<Transition>, v: nat, w: nat, at: Time)
    requires CompleteHistory(task, hs) && InForce(task, hs, v, at) && InForce(task, hs, w, at)
    ensures v == w
  {
  }

  // Some version is in force from creation on.
  lemma {:induction false} SomeVersionInForce(task: Task, hs: seq<Transition>, v: nat, at: Time) returns (w: nat)
    requires CompleteHistory(task, hs) && 1 <= v <= |hs| + 1 && task.createdAt <= at
    requires forall u: nat :: v < u <= |hs| + 1 ==> at < EffectiveAt(task, hs, u)
    ensures InForce(task, hs, w, at)
    decreases v
  {
    if EffectiveAt(task, hs, v) <= at {
      w := v;
    } else {
      w := SomeVersionInForce(task, hs, v - 1, at);
    }
  }
}
