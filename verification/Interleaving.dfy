// Histories of independent state machines that take turns in any order.

module Interleaving {
  import opened Records

  datatype Move<S, E> = Spawn(key: Id, start: S) | At(key: Id, step: E)

  // A machine is spawned only in a fresh state and only under an unused key.
  ghost predicate Moves<S, E>(
    w: map<Id, S>, m: Move<S, E>, w': map<Id, S>,
    fresh_: (Id, S) -> bool, allowed: (S, E) -> bool, next: (S, E) -> S)
  {
    match m
    case Spawn(k, s) => fresh_(k, s) && w' == if k in w then w else w[k := s]
    case At(k, e) => k in w && allowed(w[k], e) && w' == w[k := next(w[k], e)]
  }

  ghost predicate History<S, E>(
    ws: seq<map<Id, S>>, ms: seq<Move<S, E>>,
    fresh_: (Id, S) -> bool, allowed: (S, E) -> bool, next: (S, E) -> S)
  {
    && |ws| == |ms| + 1
    && ws[0] == map[]
    && forall i, j | 0 <= i < |ms| && j == i + 1 :: Moves(ws[i], ms[i], ws[j], fresh_, allowed, next)
  }

  // An invariant of one machine, kept by each of its steps, holds of every
  // machine in every state of every history.
  lemma {:induction false} InvariantHolds<S(!new), E(!new)>(
    ws: seq<map<Id, S>>, ms: seq<Move<S, E>>,
    fresh_: (Id, S) -> bool, allowed: (S, E) -> bool, next: (S, E) -> S, inv: S -> bool, i: nat)
    requires History(ws, ms, fresh_, allowed, next) && i < |ws|
    requires forall k, s :: fresh_(k, s) ==> inv(s)
    requires forall s, e :: inv(s) && allowed(s, e) ==> inv(next(s, e))
    ensures forall k :: k in ws[i] ==> inv(ws[i][k])
  {
    if i > 0 {
      InvariantHolds(ws, ms, fresh_, allowed, next, inv, i - 1);
      assert Moves(ws[i - 1], ms[i - 1], ws[i], fresh_, allowed, next);
    }
  }

  // A preorder that each step respects relates any two states of a machine in
  // the order in which they occur.
  lemma {:induction false} OrderHolds<S(!new), E(!new)>(
    ws: seq<map<Id, S>>, ms: seq<Move<S, E>>, fresh_: (Id, S) -> bool, allowed: (S, E) -> bool,
    next: (S, E) -> S, inv: S -> bool, rel: (S, S) -> bool, i: nat, j: nat, k: Id)
    requires History(ws, ms, fresh_, allowed, next) && i <= j < |ws| && k in ws[i]
    requires forall k, s :: fresh_(k, s) ==> inv(s)
    requires forall s, e :: inv(s) && allowed(s, e) ==> inv(next(s, e)) && rel(s, next(s, e))
    requires forall s :: rel(s, s)
    requires forall a, b, c :: rel(a, b) && rel(b, c) ==> rel(a, c)
    ensures k in ws[j] && rel(ws[i][k], ws[j][k])
    decreases j
  {
    if i < j {
      OrderHolds(ws, ms, fresh_, allowed, next, inv, rel, i, j - 1, k);
      InvariantHolds(ws, ms, fresh_, allowed, next, inv, j - 1);
      assert Moves(ws[j - 1], ms[j - 1], ws[j], fresh_, allowed, next);
    }
  }
}
