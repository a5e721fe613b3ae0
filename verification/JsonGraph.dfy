// Deciding whether an object graph is a JSON value: a depth-first walk with an
// explicit stack and two sets of container identities, against "every node
// reachable from the root is legal and no cycle is reachable".

module JsonGraph {
  import opened Records

  datatype Key = TextKey(text: string) | OtherKey(id: Id)

  datatype MappingKind = FrozenDict | OtherMapping
  datatype SequenceKind = FrozenList | PlainList

  datatype Object =
    | Null | Text(text: string) | Bool(flag: bool) | Whole(value: int) | Float(finite: bool)
    | Mapping(mappingKind: MappingKind, items: seq<(Key, Id)>)
    | Sequence(sequenceKind: SequenceKind, elements: seq<Id>)
    | Foreign
  {
    predicate NativeScalar() { Null? || Text? || Bool? || Whole? || (Float? && finite) }

    // The container tests the walk makes before it looks inside.
    predicate ContainerType(frozen: bool) {
      || (Mapping? && (frozen ==> mappingKind.FrozenDict?))
      || (Sequence? && (frozen <==> sequenceKind.FrozenList?))
    }

    predicate KeysOk()
      requires Mapping?
    {
      && (forall i :: 0 <= i < |items| ==> items[i].0.TextKey?)
      && (forall i, j :: 0 <= i < j < |items| ==> items[i].0 != items[j].0)
    }

    // A node that is fine by itself.
    predicate Legal(frozen: bool) {
      NativeScalar() || (ContainerType(frozen) && (Mapping? ==> KeysOk()))
    }

    function Kids(): (r: seq<Id>)
      ensures NativeScalar() || Foreign? ==> r == []
    {
      match this
      case Mapping(_, items) => seq(|items|, i requires 0 <= i < |items| => items[i].1)
      case Sequence(_, elements) => elements
      case _ => []
    }
  }

  type Heap = map<Id, Object>

  predicate Closed(heap: Heap) { forall n, k :: n in heap && k in heap[n].Kids() ==> k in heap }

  // ----- What the answer means -----

  predicate Edge(heap: Heap, n: Id, k: Id) { n in heap && k in heap[n].Kids() }

  predicate Path(heap: Heap, p: seq<Id>) {
    p != [] && forall i, j | 0 <= i < |p| && i < j < |p| :: j == i + 1 ==> Edge(heap, p[i], p[j])
  }

  ghost predicate Reaches(heap: Heap, from: Id, to: Id) {
    exists p :: Path(heap, p) && p[0] == from && p[|p| - 1] == to
  }

  ghost predicate OnCycle(heap: Heap, n: Id) {
    exists p :: Path(heap, p) && |p| > 1 && p[0] == n && p[|p| - 1] == n
  }

  ghost predicate IsJson(heap: Heap, root: Id, frozen: bool)
    requires Closed(heap)
  {
    forall n :: n in heap && Reaches(heap, root, n) ==> heap[n].Legal(frozen) && !OnCycle(heap, n)
  }

  lemma ReachesItself(heap: Heap, n: Id)
    ensures Reaches(heap, n, n)
  {
    assert Path(heap, [n]);
  }

  lemma ReachesOn(heap: Heap, from: Id, n: Id, k: Id)
    requires Reaches(heap, from, n) && Edge(heap, n, k)
    ensures Reaches(heap, from, k)
  {
    var p :| Path(heap, p) && p[0] == from && p[|p| - 1] == n;
    PathOn(heap, p, k);
    assert Path(heap, p + [k]);
  }

  lemma PathOn(heap: Heap, p: seq<Id>, k: Id)
    requires Path(heap, p) && Edge(heap, p[|p| - 1], k)
    ensures Path(heap, p + [k])
  {
    hide Edge;
  }

  // ----- The walk -----

  // One open container and the children of it still on the stack.
  datatype Frame = Frame(container: Id, todo: seq<Id>)

  function Pending(ids: seq<Id>): seq<(Id, bool)> { seq(|ids|, i requires 0 <= i < |ids| => (ids[i], false)) }

  function Flatten(frames: seq<Frame>): seq<(Id, bool)> {
    if frames == [] then []
    else
      var last := frames[|frames| - 1];
      Flatten(frames[..|frames| - 1]) + [(last.container, true)] + Pending(last.todo)
  }

  // Nothing below n is left to check.
  predicate Done(heap: Heap, rank: map<Id, nat>, n: Id) {
    n in heap && (heap[n].NativeScalar() || n in rank)
  }

  // Completed containers are legal and every child of theirs was done before them.
  predicate RankOk(heap: Heap, frozen: bool, rank: map<Id, nat>, next: nat) {
    forall n :: n in rank ==>
      && n in heap && heap[n].Legal(frozen) && rank[n] < next
      && forall k :: k in heap[n].Kids() ==>
           Done(heap, rank, k) && (k in rank ==> rank[k] < rank[n])
  }

  predicate FramesOk(heap: Heap, frozen: bool, root: Id, rank: map<Id, nat>, frames: seq<Frame>) {
    && (forall i :: 0 <= i < |frames| ==>
          FrameOk(heap, frozen, rank, frames[i], OpenChild(frames, i)))
    && Apart(root, frames)
  }

  predicate Apart(root: Id, frames: seq<Frame>) {
    && (forall i, j :: 0 <= i < j < |frames| ==> frames[i].container != frames[j].container)
    && (frames != [] ==> frames[0].container == root)
  }

  lemma SameIsApart(root: Id, frames: seq<Frame>, frames': seq<Frame>)
    requires Apart(root, frames) && |frames'| == |frames|
    requires forall i :: 0 <= i < |frames| ==> frames'[i].container == frames[i].container
    ensures Apart(root, frames')
  {
  }

  // The child of frame i that is open right above it.
  function OpenChild(frames: seq<Frame>, i: nat): seq<Id> {
    if i + 1 < |frames| then [frames[i + 1].container] else []
  }

  predicate FrameOk(heap: Heap, frozen: bool, rank: map<Id, nat>, f: Frame, open: seq<Id>) {
    && f.container in heap && f.container !in rank
    && !heap[f.container].NativeScalar() && heap[f.container].Legal(frozen)
    && (forall k :: k in f.todo ==> Edge(heap, f.container, k))
    && (forall k :: k in open ==> Edge(heap, f.container, k))
    && (forall k :: k in heap[f.container].Kids() ==> k in f.todo || k in open || Done(heap, rank, k))
  }

  lemma FrameAt(heap: Heap, frozen: bool, root: Id, rank: map<Id, nat>, frames: seq<Frame>, i: nat)
    requires FramesOk(heap, frozen, root, rank, frames) && i < |frames|
    ensures FrameOk(heap, frozen, rank, frames[i], OpenChild(frames, i))
  {
  }

  lemma FramesApart(heap: Heap, frozen: bool, root: Id, rank: map<Id, nat>, frames: seq<Frame>)
    requires FramesOk(heap, frozen, root, rank, frames)
    ensures Apart(root, frames)
  {
  }

  lemma FramesFrom(heap: Heap, frozen: bool, root: Id, rank: map<Id, nat>, frames: seq<Frame>)
    requires forall i :: 0 <= i < |frames| ==> FrameOk(heap, frozen, rank, frames[i], OpenChild(frames, i))
    requires Apart(root, frames)
    ensures FramesOk(heap, frozen, root, rank, frames)
  {
    hide FrameOk, Apart;
  }

  lemma FramesLinked(heap: Heap, frozen: bool, root: Id, rank: map<Id, nat>, frames: seq<Frame>, i: nat, j: nat)
    requires FramesOk(heap, frozen, root, rank, frames) && j == i + 1 < |frames|
    ensures Edge(heap, frames[i].container, frames[j].container)
  {
    FrameAt(heap, frozen, root, rank, frames, i);
    assert frames[j].container in OpenChild(frames, i);
  }

  // The open containers form a path from the root.
  lemma FramesArePath(heap: Heap, frozen: bool, root: Id, rank: map<Id, nat>, frames: seq<Frame>,
                      i: nat, j: nat) returns (p: seq<Id>)
    requires FramesOk(heap, frozen, root, rank, frames) && i <= j < |frames|
    ensures Path(heap, p) && p[0] == frames[i].container && p[|p| - 1] == frames[j].container
  {
    hide FramesOk, Edge;
    if i == j {
      p := [frames[i].container];
    } else {
      var q := FramesArePath(heap, frozen, root, rank, frames, i, j - 1);
      FramesLinked(heap, frozen, root, rank, frames, j - 1, j);
      p := q + [frames[j].container];
    }
  }

  // Everything reachable from a done node is done, and ranks fall along every path.
  lemma {:induction false} DonePath(heap: Heap, frozen: bool, rank: map<Id, nat>, next: nat, p: seq<Id>)
    requires RankOk(heap, frozen, rank, next) && Path(heap, p) && Done(heap, rank, p[0])
    ensures Done(heap, rank, p[|p| - 1])
    ensures |p| > 1 ==> p[0] in rank && (p[|p| - 1] in rank ==> rank[p[|p| - 1]] < rank[p[0]])
  {
    if |p| > 1 {
      var m := |p| - 2;
      var q := p[..|p| - 1];
      DonePath(heap, frozen, rank, next, q);
      assert q[|q| - 1] == p[m] && Edge(heap, p[m], p[|p| - 1]);
      if |q| == 1 { assert p[m] == p[0]; }
    }
  }

  lemma DoneIsJson(heap: Heap, frozen: bool, rank: map<Id, nat>, next: nat, root: Id)
    requires Closed(heap) && RankOk(heap, frozen, rank, next) && Done(heap, rank, root)
    ensures IsJson(heap, root, frozen)
  {
    forall n | n in heap && Reaches(heap, root, n) ensures heap[n].Legal(frozen) && !OnCycle(heap, n) {
      var p :| Path(heap, p) && p[0] == root && p[|p| - 1] == n;
      DonePath(heap, frozen, rank, next, p);
      if OnCycle(heap, n) {
        var q :| Path(heap, q) && |q| > 1 && q[0] == n && q[|q| - 1] == n;
        DonePath(heap, frozen, rank, next, q);
      }
    }
  }

  lemma FlattenNone()
    ensures Flatten([]) == []
  {
  }

  lemma FlattenPush(frames: seq<Frame>, f: Frame)
    ensures Flatten(frames + [f]) == Flatten(frames) + [(f.container, true)] + Pending(f.todo)
  {
    assert (frames + [f])[..|frames + [f]| - 1] == frames;
  }

  lemma PendingPush(ids: seq<Id>, k: Id)
    ensures Pending(ids + [k]) == Pending(ids) + [(k, false)]
  {
  }

  // A frame stays good when the container c, open above it or not, is ranked.
  lemma RankedAbove(heap: Heap, frozen: bool, rank: map<Id, nat>, next: nat, f: Frame, open: seq<Id>,
                    open': seq<Id>, c: Id)
    requires FrameOk(heap, frozen, rank, f, open) && f.container != c && c in heap
    requires open' == open || (open == [c] && open' == [])
    ensures FrameOk(heap, frozen, rank[c := next], f, open')
  {
  }

  // The last frame is complete: its container joins the ranked ones.
  lemma CloseFrame(heap: Heap, frozen: bool, root: Id, rank: map<Id, nat>, next: nat, frames: seq<Frame>)
    requires RankOk(heap, frozen, rank, next) && FramesOk(heap, frozen, root, rank, frames)
    requires frames != [] && frames[|frames| - 1].todo == []
    ensures var c := frames[|frames| - 1].container;
            && RankOk(heap, frozen, rank[c := next], next + 1)
            && FramesOk(heap, frozen, root, rank[c := next], frames[..|frames| - 1])
  {
    hide FrameOk, FramesOk, RankOk, Apart;
    var n := |frames| - 1;
    var c, front := frames[n].container, frames[..n];
    FrameAt(heap, frozen, root, rank, frames, n);
    RankOneMore(heap, frozen, rank, next, frames[n]);
    FramesApart(heap, frozen, root, rank, frames);
    FrontApart(root, frames);
    forall i | 0 <= i < n ensures FrameOk(heap, frozen, rank[c := next], front[i], OpenChild(front, i)) {
      FrameAt(heap, frozen, root, rank, frames, i);
      ContainersDiffer(heap, frozen, root, rank, frames, i, n);
      RankedAbove(heap, frozen, rank, next, frames[i], OpenChild(frames, i), OpenChild(front, i), c);
    }
    FramesFrom(heap, frozen, root, rank[c := next], front);
  }

  lemma FrontApart(root: Id, frames: seq<Frame>)
    requires Apart(root, frames) && frames != []
    ensures Apart(root, frames[..|frames| - 1])
  {
  }

  lemma ContainersDiffer(heap: Heap, frozen: bool, root: Id, rank: map<Id, nat>, frames: seq<Frame>, i: nat, n: nat)
    requires FramesOk(heap, frozen, root, rank, frames) && i < n < |frames|
    ensures frames[i].container != frames[n].container && frames[n].container in heap
  {
    FrameAt(heap, frozen, root, rank, frames, n);
  }

  lemma RankOneMore(heap: Heap, frozen: bool, rank: map<Id, nat>, next: nat, f: Frame)
    requires RankOk(heap, frozen, rank, next) && FrameOk(heap, frozen, rank, f, []) && f.todo == []
    ensures RankOk(heap, frozen, rank[f.container := next], next + 1)
  {
  }

  // What remains of the last frame when its top entry is taken off the stack.
  predicate TopTaken(last: Frame, f: Frame, k: Id) {
    last.todo != [] && f == Frame(last.container, last.todo[..|last.todo| - 1]) && k == last.todo[|last.todo| - 1]
  }

  lemma TakenFrameOk(heap: Heap, frozen: bool, rank: map<Id, nat>, last: Frame, f: Frame, k: Id)
    requires FrameOk(heap, frozen, rank, last, []) && TopTaken(last, f, k)
    ensures FrameOk(heap, frozen, rank, f, [k])
    ensures Done(heap, rank, k) ==> FrameOk(heap, frozen, rank, f, [])
  {
    assert last.todo == f.todo + [k];
  }

  lemma DropTodo(heap: Heap, frozen: bool, root: Id, rank: map<Id, nat>, frames: seq<Frame>, f: Frame, k: Id)
    requires FramesOk(heap, frozen, root, rank, frames) && frames != []
    requires TopTaken(frames[|frames| - 1], f, k) && Done(heap, rank, k)
    ensures FramesOk(heap, frozen, root, rank, frames[..|frames| - 1] + [f])
  {
    hide FrameOk, FramesOk, Apart, Done;
    var frames', n := frames[..|frames| - 1] + [f], |frames| - 1;
    forall i | 0 <= i < |frames'| ensures FrameOk(heap, frozen, rank, frames'[i], OpenChild(frames', i)) {
      FrameAt(heap, frozen, root, rank, frames, i);
      if i == n { TakenFrameOk(heap, frozen, rank, frames[n], f, k); }
    }
    FramesApart(heap, frozen, root, rank, frames);
    SameIsApart(root, frames, frames');
    FramesFrom(heap, frozen, root, rank, frames');
  }

  // Opening the container on top: its children become the new frame.
  lemma OpenFrame(heap: Heap, frozen: bool, root: Id, rank: map<Id, nat>, frames: seq<Frame>, f: Frame, c: Id)
    requires FramesOk(heap, frozen, root, rank, frames) && frames != []
    requires TopTaken(frames[|frames| - 1], f, c)
    requires c in heap && c !in rank && !heap[c].NativeScalar() && heap[c].Legal(frozen)
    requires forall i :: 0 <= i < |frames| ==> frames[i].container != c
    ensures FramesOk(heap, frozen, root, rank, frames[..|frames| - 1] + [f, Frame(c, heap[c].Kids())])
  {
    hide FrameOk, FramesOk, Apart;
    var frames', n := frames[..|frames| - 1] + [f, Frame(c, heap[c].Kids())], |frames| - 1;
    EnteredFrameOk(heap, frozen, rank, c);
    forall i | 0 <= i < |frames'| ensures FrameOk(heap, frozen, rank, frames'[i], OpenChild(frames', i)) {
      if i <= n { FrameAt(heap, frozen, root, rank, frames, i); }
      if i == n { TakenFrameOk(heap, frozen, rank, frames[n], f, c); }
    }
    FramesApart(heap, frozen, root, rank, frames);
    PushedApart(root, frames, frames', c);
    FramesFrom(heap, frozen, root, rank, frames');
  }

  lemma EnteredFrameOk(heap: Heap, frozen: bool, rank: map<Id, nat>, c: Id)
    requires c in heap && c !in rank && !heap[c].NativeScalar() && heap[c].Legal(frozen)
    ensures FrameOk(heap, frozen, rank, Frame(c, heap[c].Kids()), [])
  {
  }

  lemma PushedApart(root: Id, frames: seq<Frame>, frames': seq<Frame>, c: Id)
    requires Apart(root, frames) && frames != [] && |frames'| == |frames| + 1 && frames'[|frames|].container == c
    requires forall i :: 0 <= i < |frames| ==> frames'[i].container == frames[i].container != c
    ensures Apart(root, frames')
  {
  }

  ghost function Containers(frames: seq<Frame>): set<Id> { set f | f in frames :: f.container }

  // The node on top of the stack is reachable from the root.
  lemma TopReachable(heap: Heap, frozen: bool, root: Id, rank: map<Id, nat>, frames: seq<Frame>, c: Id)
    requires FramesOk(heap, frozen, root, rank, frames) && frames != []
    requires c in frames[|frames| - 1].todo || c == frames[|frames| - 1].container
    ensures Reaches(heap, root, c)
  {
    var n := |frames| - 1;
    assert FrameOk(heap, frozen, rank, frames[n], OpenChild(frames, n));
    var p := FramesArePath(heap, frozen, root, rank, frames, 0, n);
    assert Reaches(heap, root, frames[n].container);
    if c != frames[n].container { ReachesOn(heap, root, frames[n].container, c); }
  }

  // An open container found below itself closes a cycle.
  lemma OpenAgainIsCycle(heap: Heap, frozen: bool, root: Id, rank: map<Id, nat>, frames: seq<Frame>, i: nat, c: Id)
    requires FramesOk(heap, frozen, root, rank, frames) && i < |frames| && frames[i].container == c
    requires c in frames[|frames| - 1].todo
    ensures OnCycle(heap, c)
  {
    hide FramesOk, FrameOk, Edge;
    var n := |frames| - 1;
    var p := FramesArePath(heap, frozen, root, rank, frames, i, n);
    TodoIsEdge(heap, frozen, root, rank, frames, c);
    PathOn(heap, p, c);
    var q := p + [c];
    assert Path(heap, q) && |q| > 1 && q[0] == c && q[|q| - 1] == c;
  }

  lemma TodoIsEdge(heap: Heap, frozen: bool, root: Id, rank: map<Id, nat>, frames: seq<Frame>, c: Id)
    requires FramesOk(heap, frozen, root, rank, frames) && frames != [] && c in frames[|frames| - 1].todo
    ensures Edge(heap, frames[|frames| - 1].container, c)
  {
    FrameAt(heap, frozen, root, rank, frames, |frames| - 1);
    hide FramesOk, Edge;
  }

  // What the loop knows: the ghost frames and ranks that explain its variables.
  ghost predicate Walking(heap: Heap, root: Id, frozen: bool, pending: seq<(Id, bool)>, active: set<Id>,
                          completed: set<Id>, frames: seq<Frame>, rank: map<Id, nat>, next: nat)
  {
    && active == Containers(frames) && completed == rank.Keys
    && RankOk(heap, frozen, rank, next) && FramesOk(heap, frozen, root, rank, frames)
    && (|| (pending == [(root, false)] && frames == [])
        || (pending == Flatten(frames) && (frames == [] ==> Done(heap, rank, root))))
  }

  // The top of the stack is the exit mark of the last frame, the last child it
  // has to do, or the root before anything was entered.
  lemma TopOfStack(heap: Heap, root: Id, frozen: bool, pending: seq<(Id, bool)>, active: set<Id>,
                   completed: set<Id>, frames: seq<Frame>, rank: map<Id, nat>, next: nat)
      returns (f: Frame)
    requires Walking(heap, root, frozen, pending, active, completed, frames, rank, next) && pending != []
    ensures var (current, exiting) := pending[|pending| - 1];
            && (frames == [] ==> current == root && !exiting && pending == [(root, false)])
            && (frames != [] && exiting ==>
                  && frames[|frames| - 1].container == current && frames[|frames| - 1].todo == []
                  && pending[..|pending| - 1] == Flatten(frames[..|frames| - 1]))
            && (frames != [] && !exiting ==>
                  && TopTaken(frames[|frames| - 1], f, current)
                  && pending[..|pending| - 1] == Flatten(frames[..|frames| - 1] + [f]))
  {
    hide FramesOk, RankOk, Flatten, Done, Containers;
    FlattenNone();
    f := Frame(root, []);
    if frames != [] {
      var n := |frames| - 1;
      assert frames == frames[..n] + [frames[n]];
      FlattenPush(frames[..n], frames[n]);
      var todo := frames[n].todo;
      if todo != [] {
        f := Frame(frames[n].container, todo[..|todo| - 1]);
        PendingPush(f.todo, todo[|todo| - 1]);
        FlattenPush(frames[..n], f);
        assert todo == f.todo + [todo[|todo| - 1]];
      }
    }
  }

  // The top child turned out to be done already.
  lemma SkipTop(heap: Heap, root: Id, frozen: bool, pending: seq<(Id, bool)>, active: set<Id>, completed: set<Id>,
                frames: seq<Frame>, rank: map<Id, nat>, next: nat, f: Frame)
      returns (frames': seq<Frame>)
    requires Walking(heap, root, frozen, pending, active, completed, frames, rank, next) && pending != []
    requires var (current, exiting) := pending[|pending| - 1];
             && !exiting && Done(heap, rank, current)
             && (frames == [] ==> current == root && pending == [(root, false)])
             && (frames != [] ==>
                   && TopTaken(frames[|frames| - 1], f, current)
                   && pending[..|pending| - 1] == Flatten(frames[..|frames| - 1] + [f]))
    ensures Walking(heap, root, frozen, pending[..|pending| - 1], active, completed, frames', rank, next)
  {
    frames' := [];
    if frames != [] {
      DropTodo(heap, frozen, root, rank, frames, f, pending[|pending| - 1].0);
      frames' := frames[..|frames| - 1] + [f];
      hide FramesOk, RankOk, Flatten;
      SameContainers(frames, frames');
    }
  }

  lemma SameContainers(frames: seq<Frame>, frames': seq<Frame>)
    requires |frames'| == |frames|
    requires forall i :: 0 <= i < |frames| ==> frames'[i].container == frames[i].container
    ensures Containers(frames') == Containers(frames)
  {
    forall c | c in Containers(frames) ensures c in Containers(frames') {
      var i :| 0 <= i < |frames| && frames[i].container == c;
      assert frames'[i] in frames';
    }
    forall c | c in Containers(frames') ensures c in Containers(frames) {
      var i :| 0 <= i < |frames'| && frames'[i].container == c;
      assert frames[i] in frames;
    }
  }

  // The last frame is left.
  lemma ExitTop(heap: Heap, root: Id, frozen: bool, pending: seq<(Id, bool)>, active: set<Id>, completed: set<Id>,
                frames: seq<Frame>, rank: map<Id, nat>, next: nat)
    requires Walking(heap, root, frozen, pending, active, completed, frames, rank, next) && frames != []
    requires pending != [] && frames[|frames| - 1].todo == []
    requires pending[..|pending| - 1] == Flatten(frames[..|frames| - 1])
    ensures var c, n := frames[|frames| - 1].container, |frames| - 1;
            && c in active && c !in completed
            && Walking(heap, root, frozen, pending[..|pending| - 1], active - {c}, completed + {c}, frames[..n],
                       rank[c := next], next + 1)
  {
    var n := |frames| - 1;
    var c := frames[n].container;
    CloseFrame(heap, frozen, root, rank, next, frames);
    assert frames[n] in frames;
    FrameAt(heap, frozen, root, rank, frames, n);
    if n == 0 { assert c == root; }
    hide FramesOk, RankOk, Flatten, FrameOk;
    LastContainerLeaves(heap, frozen, root, rank, frames);
  }

  lemma LastContainerLeaves(heap: Heap, frozen: bool, root: Id, rank: map<Id, nat>, frames: seq<Frame>)
    requires FramesOk(heap, frozen, root, rank, frames) && frames != []
    ensures Containers(frames[..|frames| - 1]) == Containers(frames) - {frames[|frames| - 1].container}
  {
    hide FramesOk;
    FramesApart(heap, frozen, root, rank, frames);
    var n := |frames| - 1;
    var c := frames[n].container;
    forall k | k in Containers(frames[..n]) ensures k in Containers(frames) && k != c {
      var i :| 0 <= i < n && frames[i].container == k;
      assert frames[i] in frames;
    }
    forall k | k in Containers(frames) && k != c ensures k in Containers(frames[..n]) {
      var i :| 0 <= i <= n && frames[i].container == k;
      assert frames[i] in frames[..n];
    }
  }

  // A container met for the first time is entered.
  lemma OpenTop(heap: Heap, root: Id, frozen: bool, pending: seq<(Id, bool)>, active: set<Id>, completed: set<Id>,
                frames: seq<Frame>, rank: map<Id, nat>, next: nat, f: Frame, c: Id)
      returns (frames': seq<Frame>)
    requires Walking(heap, root, frozen, pending, active, completed, frames, rank, next) && pending != []
    requires c in heap && !heap[c].NativeScalar() && heap[c].Legal(frozen) && c !in active && c !in completed
    requires pending[|pending| - 1] == (c, false)
    requires frames == [] ==> c == root && pending == [(root, false)]
    requires frames != [] ==>
               && TopTaken(frames[|frames| - 1], f, c)
               && pending[..|pending| - 1] == Flatten(frames[..|frames| - 1] + [f])
    ensures Walking(heap, root, frozen, pending[..|pending| - 1] + [(c, true)] + Pending(heap[c].Kids()),
                    active + {c}, completed, frames', rank, next)
  {
    var entered := Frame(c, heap[c].Kids());
    if frames == [] {
      frames' := [entered];
      FlattenPush([], entered);
      assert [] + [entered] == [entered];
      assert FrameOk(heap, frozen, rank, entered, OpenChild([entered], 0));
    } else {
      OpenInner(heap, root, frozen, frames, rank, f, c);
      frames' := frames[..|frames| - 1] + [f, entered];
      hide FramesOk, RankOk, Flatten, Pending, TopTaken;
    }
  }

  lemma OpenInner(heap: Heap, root: Id, frozen: bool, frames: seq<Frame>, rank: map<Id, nat>, f: Frame, c: Id)
    requires FramesOk(heap, frozen, root, rank, frames) && frames != [] && TopTaken(frames[|frames| - 1], f, c)
    requires c in heap && !heap[c].NativeScalar() && heap[c].Legal(frozen)
    requires c !in Containers(frames) && c !in rank
    ensures var front, entered := frames[..|frames| - 1] + [f], Frame(c, heap[c].Kids());
            var frames' := frames[..|frames| - 1] + [f, entered];
            && FramesOk(heap, frozen, root, rank, frames')
            && Containers(frames') == Containers(frames) + {c}
            && Flatten(frames') == Flatten(front) + [(c, true)] + Pending(heap[c].Kids())
  {
    hide FramesOk, Flatten, Pending;
    var front, entered := frames[..|frames| - 1] + [f], Frame(c, heap[c].Kids());
    forall i | 0 <= i < |frames| ensures frames[i].container != c { assert frames[i] in frames; }
    OpenFrame(heap, frozen, root, rank, frames, f, c);
    FlattenPush(front, entered);
    assert front + [entered] == frames[..|frames| - 1] + [f, entered];
    SameContainers(frames, front);
    PushedContainers(front, entered);
  }

  lemma PushedContainers(frames: seq<Frame>, f: Frame)
    ensures Containers(frames + [f]) == Containers(frames) + {f.container}
  {
    forall c | c in Containers(frames) ensures c in Containers(frames + [f]) {
      var g :| g in frames && g.container == c;
      assert g in frames + [f];
    }
    assert f in frames + [f];
  }

  lemma CyclicIsNotJson(heap: Heap, root: Id, frozen: bool, frames: seq<Frame>, rank: map<Id, nat>, f: Frame, c: Id)
    requires Closed(heap) && FramesOk(heap, frozen, root, rank, frames) && frames != []
    requires TopTaken(frames[|frames| - 1], f, c) && c in Containers(frames)
    ensures !IsJson(heap, root, frozen)
  {
    TopReachable(heap, frozen, root, rank, frames, c);
    var g :| g in frames && g.container == c;
    var i :| 0 <= i < |frames| && frames[i] == g;
    FrameAt(heap, frozen, root, rank, frames, i);
    OpenAgainIsCycle(heap, frozen, root, rank, frames, i, c);
  }

  lemma IllegalIsNotJson(heap: Heap, root: Id, frozen: bool, frames: seq<Frame>, rank: map<Id, nat>, f: Frame, c: Id)
    requires Closed(heap) && FramesOk(heap, frozen, root, rank, frames) && c in heap && !heap[c].Legal(frozen)
    requires frames == [] ==> c == root
    requires frames != [] ==> TopTaken(frames[|frames| - 1], f, c) || c == frames[|frames| - 1].container
    ensures !IsJson(heap, root, frozen)
  {
    if frames == [] { ReachesItself(heap, root); } else { TopReachable(heap, frozen, root, rank, frames, c); }
  }

  lemma StartWalking(heap: Heap, root: Id, frozen: bool)
    requires root in heap
    ensures Walking(heap, root, frozen, [(root, false)], {}, {}, [], map[], 0)
  {
  }

  // What the top entry names is a node, and an exit mark names an open container.
  lemma TopIsNode(heap: Heap, root: Id, frozen: bool, frames: seq<Frame>, rank: map<Id, nat>, f: Frame,
                  c: Id, exiting: bool)
    requires Closed(heap) && root in heap && FramesOk(heap, frozen, root, rank, frames)
    requires frames == [] ==> c == root && !exiting
    requires frames != [] && exiting ==> frames[|frames| - 1].container == c
    requires frames != [] && !exiting ==> TopTaken(frames[|frames| - 1], f, c)
    ensures c in heap
    ensures exiting ==> !heap[c].NativeScalar() && heap[c].ContainerType(frozen)
  {
    if frames != [] {
      FrameAt(heap, frozen, root, rank, frames, |frames| - 1);
      if !exiting { assert c in frames[|frames| - 1].todo; }
    }
  }

  lemma NothingPending(heap: Heap, root: Id, frozen: bool, active: set<Id>, completed: set<Id>,
                       frames: seq<Frame>, rank: map<Id, nat>, next: nat)
    requires Walking(heap, root, frozen, [], active, completed, frames, rank, next)
    ensures Done(heap, rank, root) && RankOk(heap, frozen, rank, next)
  {
  }

  lemma SameMeasure(keys: set<Id>, a: set<Id>, c: set<Id>, k: Id)
    requires k in a
    ensures keys - (a - {k}) - (c + {k}) == keys - a - c
  {
  }

  lemma SmallerMeasure(keys: set<Id>, a: set<Id>, c: set<Id>, k: Id)
    requires k in keys && k !in a && k !in c
    ensures |keys - (a + {k}) - c| < |keys - a - c|
  {
    assert keys - (a + {k}) - c == keys - a - c - {k};
  }

  // True exactly when everything reachable is legal and nothing reachable lies on a cycle.
  method IsNativeJsonValue(heap: Heap, root: Id, frozen: bool) returns (ok: bool)
    requires Closed(heap) && root in heap
    ensures ok <==> IsJson(heap, root, frozen)
  {
    hide IsJson, Flatten, FramesOk, FrameOk, RankOk, TopTaken, Containers;
    var pending: seq<(Id, bool)> := [(root, false)];
    var active: set<Id>, completed: set<Id> := {}, {};
    ghost var frames: seq<Frame>, rank: map<Id, nat>, next: nat := [], map[], 0;
    StartWalking(heap, root, frozen);
    while pending != []
      invariant Walking(heap, root, frozen, pending, active, completed, frames, rank, next)
      decreases |heap.Keys - active - completed|, |pending|
    {
      ghost var rest := TopOfStack(heap, root, frozen, pending, active, completed, frames, rank, next);
      ghost var before := pending;
      var (current, exiting) := pending[|pending| - 1];
      TopIsNode(heap, root, frozen, frames, rank, rest, current, exiting);
      pending := pending[..|pending| - 1];
      var o := heap[current];
      if o.NativeScalar() {
        frames := SkipTop(heap, root, frozen, before, active, completed, frames, rank, next, rest);
        continue;
      }
      if !o.ContainerType(frozen) {
        IllegalIsNotJson(heap, root, frozen, frames, rank, rest, current);
        return false;
      }
      if exiting {
        ExitTop(heap, root, frozen, before, active, completed, frames, rank, next);
        SameMeasure(heap.Keys, active, completed, current);
        active, completed := active - {current}, completed + {current};
        frames, rank, next := frames[..|frames| - 1], rank[current := next], next + 1;
        continue;
      }
      if current in active {
        CyclicIsNotJson(heap, root, frozen, frames, rank, rest, current);
        return false;
      }
      if current in completed {
        frames := SkipTop(heap, root, frozen, before, active, completed, frames, rank, next, rest);
        continue;
      }
      ghost var unopened := active;
      active := active + {current};
      pending := pending + [(current, true)];
      if o.Mapping? && !o.KeysOk() {
        IllegalIsNotJson(heap, root, frozen, frames, rank, rest, current);
        return false;
      }
      pending := pending + Pending(o.Kids());
      frames := OpenTop(heap, root, frozen, before, unopened, completed, frames, rank, next, rest, current);
      SmallerMeasure(heap.Keys, unopened, completed, current);
    }
    NothingPending(heap, root, frozen, active, completed, frames, rank, next);
    DoneIsJson(heap, frozen, rank, next, root);
    return true;
  }
}
