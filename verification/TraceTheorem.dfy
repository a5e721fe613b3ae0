// Counting plus precedence is exactness, for any table and then for each variant.

module TraceTheorem {
  import opened Records
  import opened TraceGrader
  import opened TraceExact

  // ----- Numbered occurrences are counts -----

  predicate Wears(n: Node, kind: EventKind, purpose: Purpose) { n.kind == kind && n.purpose == purpose }

  function CountNodes(c: seq<Node>, kind: EventKind, purpose: Purpose): (r: nat)
    ensures r <= |c|
  {
    if c == [] then 0
    else CountNodes(c[..|c| - 1], kind, purpose) + if Wears(c[|c| - 1], kind, purpose) then 1 else 0
  }

  lemma NumberedPrefix(c: seq<Node>, k: nat)
    requires Numbered(c) && k <= |c|
    ensures Numbered(c[..k])
  {
    forall i | 0 <= i < k && 1 < c[i].occurrence ensures HasEarlier(c[..k][..i], c[i]) {
      assert c[..k][..i] == c[..i];
    }
  }

  lemma NumberedLast(c: seq<Node>)
    requires Numbered(c) && c != []
    ensures var k := |c| - 1;
            && c[k] !in c[..k] && 1 <= c[k].occurrence
            && (1 < c[k].occurrence ==> c[k].(occurrence := c[k].occurrence - 1) in c[..k])
  {
    var k := |c| - 1;
    assert 1 < c[k].occurrence ==> HasEarlier(c[..k], c[k]);
  }

  // The nodes of one label carry the occurrences 1 to m.
  ghost predicate Dense(c: seq<Node>, kind: EventKind, purpose: Purpose, m: nat) {
    && (forall n :: n in c && Wears(n, kind, purpose) ==> n.occurrence <= m)
    && (forall o: nat :: 1 <= o <= m ==> Node(kind, o, purpose) in c)
  }

  lemma DenseStep(c: seq<Node>, last: Node, kind: EventKind, purpose: Purpose, m: nat)
    requires Dense(c, kind, purpose, m) && last !in c && 1 <= last.occurrence
    requires 1 < last.occurrence ==> last.(occurrence := last.occurrence - 1) in c
    ensures Dense(c + [last], kind, purpose, if Wears(last, kind, purpose) then m + 1 else m)
  {
    if Wears(last, kind, purpose) {
      assert last.occurrence == m + 1 by {
        assert last.occurrence <= m ==> Node(kind, last.occurrence, purpose) in c;
        if m + 1 < last.occurrence { assert Wears(last.(occurrence := last.occurrence - 1), kind, purpose); }
      }
    }
  }

  lemma {:induction false} OccurrencesAreDense(c: seq<Node>, kind: EventKind, purpose: Purpose)
    requires Numbered(c)
    ensures Dense(c, kind, purpose, CountNodes(c, kind, purpose))
  {
    if c == [] {
      assert Dense([], kind, purpose, 0);
    } else {
      var front, last := c[..|c| - 1], c[|c| - 1];
      var m := CountNodes(front, kind, purpose);
      NumberedPrefix(c, |c| - 1);
      NumberedLast(c);
      assert CountNodes(c, kind, purpose) == if Wears(last, kind, purpose) then m + 1 else m;
      OccurrencesAreDense(front, kind, purpose);
      DenseAgain(c, front, last, kind, purpose, m);
    }
  }

  lemma DenseAgain(c: seq<Node>, front: seq<Node>, last: Node, kind: EventKind, purpose: Purpose, m: nat)
    requires c != [] && front == c[..|c| - 1] && last == c[|c| - 1]
    requires Dense(front, kind, purpose, m) && last !in front && 1 <= last.occurrence
    requires 1 < last.occurrence ==> last.(occurrence := last.occurrence - 1) in front
    ensures Dense(c, kind, purpose, if Wears(last, kind, purpose) then m + 1 else m)
  {
    DenseStep(front, last, kind, purpose, m);
    assert c == front + [last];
  }

  // A node's occurrence is one more than the nodes of its label before it.
  lemma OccurrenceIsRank(c: seq<Node>, j: nat)
    requires Numbered(c) && j < |c|
    ensures CountNodes(c[..j], c[j].kind, c[j].purpose) == c[j].occurrence - 1
  {
    NumberedPrefix(c, j);
    var n, m := c[j], CountNodes(c[..j], c[j].kind, c[j].purpose);
    OccurrencesAreDense(c[..j], n.kind, n.purpose);
    NumberedPrefix(c, j + 1);
    NumberedLast(c[..j + 1]);
    assert c[..j + 1][..j] == c[..j];
    DenseStep(c[..j], n, n.kind, n.purpose, m);
    assert Wears(n, n.kind, n.purpose) && n in c[..j] + [n];
    assert 1 < n.occurrence ==> Wears(n.(occurrence := n.occurrence - 1), n.kind, n.purpose);
    assert n == Node(n.kind, n.occurrence, n.purpose) && n !in c[..j];
  }

  lemma {:induction false} MaxIsMax(nodes: seq<Node>, kind: EventKind, purpose: Purpose)
    ensures var m := MaxOccurrence(nodes, kind, purpose);
            && (forall n :: n in nodes && Wears(n, kind, purpose) ==> n.occurrence <= m)
            && (m > 0 ==> Node(kind, m, purpose) in nodes)
  {
    if nodes != [] {
      MaxIsMax(nodes[..|nodes| - 1], kind, purpose);
      assert nodes == nodes[..|nodes| - 1] + [nodes[|nodes| - 1]];
    }
  }

  lemma EndpointsAreNodes(c: seq<Node>, edges: seq<Edge>)
    requires Ordered(c, edges) && 2 <= |c|
    ensures forall n :: n in Endpoints(edges) <==> n in c && Safety(n.kind)
  {
    forall n | n in Endpoints(edges) ensures n in c {
      var e :| e in edges && (n == e.0 || n == e.1);
      assert Forward(c, e);
    }
    forall n | n in c && Safety(n.kind) ensures n in Endpoints(edges) {
      var i :| 0 <= i < |c| && c[i] == n;
      var k := if i == 0 then 0 else i - 1;
      assert Pairs(c)[k] in Pairs(c);
    }
  }

  lemma MaxIsCount(c: seq<Node>, edges: seq<Edge>, kind: EventKind, purpose: Purpose)
    requires Ordered(c, edges) && 2 <= |c| && Numbered(c) && Safety(kind)
    ensures MaxOccurrence(Endpoints(edges), kind, purpose) == CountNodes(c, kind, purpose)
  {
    var nodes := Endpoints(edges);
    EndpointsAreNodes(c, edges);
    MaxIsMax(nodes, kind, purpose);
    OccurrencesAreDense(c, kind, purpose);
    var m, k := MaxOccurrence(nodes, kind, purpose), CountNodes(c, kind, purpose);
    if 0 < k { assert Wears(Node(kind, k, purpose), kind, purpose); }
    if 0 < m { assert Wears(Node(kind, m, purpose), kind, purpose); }
  }

  // ----- Equal counts make equal lengths -----

  function NodeKinds(c: seq<Node>): (r: seq<EventKind>)
    ensures |r| == |c| && forall i :: 0 <= i < |c| ==> r[i] == c[i].kind
  {
    seq(|c|, i requires 0 <= i < |c| => c[i].kind)
  }

  function LabelKinds(ls: seq<Label>): (r: seq<EventKind>)
    ensures |r| == |ls| && forall i :: 0 <= i < |ls| ==> r[i] == ls[i].0
  {
    seq(|ls|, i requires 0 <= i < |ls| => ls[i].0)
  }

  lemma {:induction false} KindCount(c: seq<Node>, kind: EventKind)
    ensures multiset(NodeKinds(c))[kind]
            == CountNodes(c, kind, AnyPurpose) + CountNodes(c, kind, Understanding) + CountNodes(c, kind, Presentation)
  {
    if c != [] {
      var k := |c| - 1;
      KindCount(c[..k], kind);
      assert NodeKinds(c) == NodeKinds(c[..k]) + [c[k].kind];
    }
  }

  lemma SpotsStep(events: seq<TraceEvent>, e: TraceEvent)
    ensures Spots(events + [e]) == if Safety(e.kind) then Spots(events) + [|events|] else Spots(events)
    ensures Projection(events + [e]) == if Safety(e.kind) then Projection(events) + [LabelOf(e)] else Projection(events)
  {
    assert (events + [e])[..|events + [e]| - 1] == events;
  }

  predicate SpotOk(events: seq<TraceEvent>, i: nat)
    requires i < |Spots(events)| && |Projection(events)| == |Spots(events)|
  {
    var s := Spots(events)[i];
    s < |events| && Safety(events[s].kind) && Projection(events)[i] == LabelOf(events[s])
  }

  lemma {:induction false} SpotsFacts(events: seq<TraceEvent>)
    ensures |Projection(events)| == |Spots(events)|
    ensures forall i :: 0 <= i < |Spots(events)| ==> SpotOk(events, i)
    ensures forall i, j :: 0 <= i < j < |Spots(events)| ==> Spots(events)[i] < Spots(events)[j]
    ensures forall k :: 0 <= k < |events| && Safety(events[k].kind) ==> k in Spots(events)
  {
    if events != [] {
      var k := |events| - 1;
      var front, last := events[..k], events[k];
      SpotsFacts(front);
      SpotsStep(front, last);
      assert events == front + [last];
      hide Spots, Projection, Safety;
      forall i | 0 <= i < |Spots(events)| ensures SpotOk(events, i) {
        if i < |Spots(front)| { assert SpotOk(front, i); }
      }
      forall i | 0 <= i < |Spots(front)| ensures Spots(front)[i] < k { assert SpotOk(front, i); }
      if Safety(last.kind) { assert Spots(events)[|Spots(front)|] == k; }
      forall x | 0 <= x < |events| && Safety(events[x].kind) ensures x in Spots(events) {
        if x < k { assert front[x] == events[x] && x in Spots(front); }
      }
    }
  }

  lemma LabelKindsStep(ls: seq<Label>, l: Label)
    ensures LabelKinds(ls + [l]) == LabelKinds(ls) + [l.0]
  {
  }

  lemma {:induction false} EventKindCount(events: seq<TraceEvent>, kind: EventKind)
    requires Safety(kind)
    ensures CountKind(events, kind) == multiset(LabelKinds(Projection(events)))[kind]
  {
    if events == [] {
      assert LabelKinds([]) == [];
    } else {
      var k := |events| - 1;
      EventKindCount(events[..k], kind);
      LabelKindsStep(Projection(events[..k]), LabelOf(events[k]));
    }
  }

  lemma WithoutStartCounts(c: seq<Node>, kind: EventKind)
    requires StartsThird(c) && Safety(kind)
    ensures multiset(NodeKinds(WithoutStart(c)))[kind] == multiset(NodeKinds(c))[kind]
  {
    assert NodeKinds(WithoutStart(c)) == NodeKinds(c)[..2] + NodeKinds(c)[3..];
    assert NodeKinds(c) == NodeKinds(c)[..2] + [c[2].kind] + NodeKinds(c)[3..];
  }

  lemma CardinalityMeansCounts(events: seq<TraceEvent>, v: Variant, c: seq<Node>)
    requires Table(c, Edges(v))
    ensures CardinalityVerdict(events, v).Pass?
            <==> forall k :: Safety(k) ==>
                   multiset(LabelKinds(Projection(events)))[k] == multiset(NodeKinds(WithoutStart(c)))[k]
  {
    hide Edges, Endpoints, Projection, LabelKinds, NodeKinds, StartsThird, Numbered, Ordered, LabelsFit, Safety,
      WithoutStart;
    LongEnough(c);
    forall k | Safety(k)
      ensures CountKind(events, k) == multiset(LabelKinds(Projection(events)))[k]
      ensures ExpectedCount(Endpoints(Edges(v)), k) == multiset(NodeKinds(WithoutStart(c)))[k]
    {
      EventKindCount(events, k);
      MaxIsCount(c, Edges(v), k, AnyPurpose);
      MaxIsCount(c, Edges(v), k, Understanding);
      MaxIsCount(c, Edges(v), k, Presentation);
      KindCount(c, k);
      WithoutStartCounts(c, k);
    }
  }

  lemma LongEnough(c: seq<Node>)
    requires StartsThird(c)
    ensures 4 <= |c|
  {
  }

  lemma NoStarts(events: seq<TraceEvent>, c: seq<Node>, k: EventKind)
    requires StartsThird(c) && !Safety(k)
    ensures k !in LabelKinds(Projection(events)) && k !in NodeKinds(WithoutStart(c))
  {
    SpotsFacts(events);
    forall i | 0 <= i < |Projection(events)| ensures Projection(events)[i].0 != k { assert SpotOk(events, i); }
  }

  lemma SameCountsSameLength(events: seq<TraceEvent>, c: seq<Node>)
    requires StartsThird(c)
    requires forall k :: Safety(k) ==>
               multiset(LabelKinds(Projection(events)))[k] == multiset(NodeKinds(WithoutStart(c)))[k]
    ensures |Projection(events)| == |WithoutStart(c)| == |Spots(events)|
  {
    SpotsFacts(events);
    hide Projection, Spots;
    var a, b := LabelKinds(Projection(events)), NodeKinds(WithoutStart(c));
    forall k ensures multiset(a)[k] == multiset(b)[k] {
      if !Safety(k) { NoStarts(events, c, k); }
    }
    assert multiset(a) == multiset(b);
    assert |a| == |multiset(a)| && |b| == |multiset(b)|;
  }

  // ----- Where nodes are -----

  lemma {:induction false} MatchingSpots(events: seq<TraceEvent>, n: Node)
    ensures forall i :: i in Matching(events, n) ==> i < |events| && Matches(events[i], n)
  {
    if events != [] { MatchingSpots(events[..|events| - 1], n); }
  }

  lemma {:induction false} MatchingPrefix(events: seq<TraceEvent>, n: Node, s: nat)
    requires s <= |events|
    ensures Matching(events[..s], n) <= Matching(events, n)
  {
    if s < |events| {
      MatchingPrefix(events[..|events| - 1], n, s);
      assert events[..|events| - 1][..s] == events[..s];
    } else {
      assert events[..s] == events;
    }
  }

  // The node is where it matches with the right number of matches before.
  lemma NodeIsAt(events: seq<TraceEvent>, n: Node, s: nat)
    requires s < |events| && Matches(events[s], n) && |Matching(events[..s], n)| == n.occurrence - 1
    ensures NodeIndex(events, n) == Some(s)
  {
    MatchingPrefix(events, n, s + 1);
    assert events[..s + 1][..s] == events[..s];
  }

  lemma NodeIsSeen(events: seq<TraceEvent>, n: Node)
    requires 1 <= n.occurrence && NodeIndex(events, n).Some?
    ensures NodeIndex(events, n).value < |events| && Matches(events[NodeIndex(events, n).value], n)
  {
    MatchingSpots(events, n);
    assert Matching(events, n)[n.occurrence - 1] in Matching(events, n);
  }

  predicate Fits(n: Node) { n.kind.ContextManifestRecorded? <==> !n.purpose.AnyPurpose? }

  lemma MatchIsLabel(e: TraceEvent, n: Node)
    requires Fits(n)
    ensures Matches(e, n) <==> LabelOf(e) == NodeLabel(n)
  {
  }

  function CountLabel(ls: seq<Label>, l: Label): nat {
    if ls == [] then 0 else CountLabel(ls[..|ls| - 1], l) + if ls[|ls| - 1] == l then 1 else 0
  }

  lemma CountLabelStep(ls: seq<Label>, x: Label, l: Label)
    ensures CountLabel(ls + [x], l) == CountLabel(ls, l) + if x == l then 1 else 0
  {
    assert (ls + [x])[..|ls + [x]| - 1] == ls;
  }

  lemma {:induction false} MatchesAreLabels(events: seq<TraceEvent>, n: Node)
    requires Fits(n) && Safety(n.kind)
    ensures |Matching(events, n)| == CountLabel(Projection(events), NodeLabel(n))
  {
    if events != [] {
      var k := |events| - 1;
      var front, last := events[..k], events[k];
      MatchesAreLabels(front, n);
      MatchIsLabel(last, n);
      CountLabelStep(Projection(front), LabelOf(last), NodeLabel(n));
    }
  }

  lemma {:induction false} SpotsPrefix(events: seq<TraceEvent>, i: nat)
    requires i < |Spots(events)|
    ensures Spots(events)[i] < |events|
    ensures Spots(events[..Spots(events)[i]]) == Spots(events)[..i]
    ensures i <= |Projection(events)| && Projection(events[..Spots(events)[i]]) == Projection(events)[..i]
  {
    var k := |events| - 1;
    var front, last := events[..k], events[k];
    SpotsStep(front, last);
    assert events == front + [last];
    SpotsLengths(front);
    hide Spots, Projection;
    if i < |Spots(front)| {
      SpotsPrefix(front, i);
      var s := Spots(front)[i];
      assert front[..s] == events[..s];
      assert Spots(events)[..i] == Spots(front)[..i] && Projection(events)[..i] == Projection(front)[..i];
    } else {
      assert Spots(events)[..i] == Spots(front) && Projection(events)[..i] == Projection(front);
    }
  }

  lemma SpotsLengths(events: seq<TraceEvent>)
    ensures |Projection(events)| == |Spots(events)|
  {
    SpotsFacts(events);
  }

  lemma {:induction false} LabelsAreNodes(c: seq<Node>, n: Node)
    ensures CountLabel(NodeLabels(c), NodeLabel(n)) == CountNodes(c, n.kind, n.purpose)
  {
    if c != [] {
      var k := |c| - 1;
      LabelsAreNodes(c[..k], n);
      assert NodeLabels(c) == NodeLabels(c[..k]) + [NodeLabel(c[k])];
      CountLabelStep(NodeLabels(c[..k]), NodeLabel(c[k]), NodeLabel(n));
    }
  }

  // Where a chain position stands once the start node is taken out.
  function SafeIndex(j: nat): nat
    requires j != 2
  {
    if j < 2 then j else j - 1
  }

  lemma RankWithoutStart(c: seq<Node>, j: nat)
    requires Numbered(c) && StartsThird(c) && j < |c| && j != 2
    ensures CountNodes(WithoutStart(c)[..SafeIndex(j)], c[j].kind, c[j].purpose) == c[j].occurrence - 1
  {
    OccurrenceIsRank(c, j);
    var kind, purpose := c[j].kind, c[j].purpose;
    if j < 2 {
      assert WithoutStart(c)[..j] == c[..j];
    } else {
      SkipStart(c, kind, purpose, j);
    }
  }

  lemma {:induction false} CountNodesConcat(a: seq<Node>, b: seq<Node>, kind: EventKind, purpose: Purpose)
    ensures CountNodes(a + b, kind, purpose) == CountNodes(a, kind, purpose) + CountNodes(b, kind, purpose)
  {
    if b == [] {
      assert a + b == a;
    } else {
      CountNodesConcat(a, b[..|b| - 1], kind, purpose);
      assert (a + b)[..|a + b| - 1] == a + b[..|b| - 1];
    }
  }

  lemma SkipStart(c: seq<Node>, kind: EventKind, purpose: Purpose, j: nat)
    requires StartsThird(c) && 3 <= j <= |c| && Safety(kind)
    ensures CountNodes(WithoutStart(c)[..j - 1], kind, purpose) == CountNodes(c[..j], kind, purpose)
  {
    var head, tail := c[..2], c[3..j];
    assert WithoutStart(c)[..j - 1] == head + tail && c[..j] == head + [RU_STARTED] + tail;
    CountNodesConcat(head, tail, kind, purpose);
    CountNodesConcat(head + [RU_STARTED], tail, kind, purpose);
    CountNodesConcat(head, [RU_STARTED], kind, purpose);
    assert CountNodes([RU_STARTED], kind, purpose) == 0 by { assert [RU_STARTED][..0] == []; }
  }

  // In a trace with the right projection every safety node is found at its place.
  lemma NodeAtItsSpot(events: seq<TraceEvent>, c: seq<Node>, j: nat)
    requires Numbered(c) && LabelsFit(c) && StartsThird(c) && j < |c| && j != 2
    requires Projection(events) == NodeLabels(WithoutStart(c))
    ensures SafeIndex(j) < |Spots(events)| && NodeIndex(events, c[j]) == Some(Spots(events)[SafeIndex(j)])
  {
    var i, n, w := SafeIndex(j), c[j], WithoutStart(c);
    SpotsFacts(events);
    assert SpotOk(events, i);
    assert n in c && w[i] == n && Safety(n.kind);
    var s := Spots(events)[i];
    MatchIsLabel(events[s], n);
    assert Projection(events)[i] == NodeLabel(n);
    SpotsPrefix(events, i);
    MatchesAreLabels(events[..s], n);
    assert NodeLabels(w)[..i] == NodeLabels(w[..i]);
    LabelsAreNodes(w[..i], n);
    RankWithoutStart(c, j);
    NodeIsAt(events, n, s);
  }

  // ----- Both directions -----

  ghost predicate ExactlyOrdered(events: seq<TraceEvent>, c: seq<Node>)
    requires 3 <= |c|
  {
    Projection(events) == NodeLabels(WithoutStart(c)) && StartInPlace(events)
  }

  lemma PlaceOf(events: seq<TraceEvent>, c: seq<Node>, j: nat)
    requires Numbered(c) && LabelsFit(c) && StartsThird(c) && j < |c| && ExactlyOrdered(events, c)
    ensures NodeIndex(events, c[j]).Some? && |Spots(events)| == |c| - 1
    ensures j < 2 ==> NodeIndex(events, c[j]).value == Spots(events)[j]
    ensures j == 2 ==> Spots(events)[1] < NodeIndex(events, c[j]).value < Spots(events)[2]
    ensures 2 < j ==> NodeIndex(events, c[j]).value == Spots(events)[j - 1]
  {
    SpotsFacts(events);
    if j != 2 { NodeAtItsSpot(events, c, j); }
  }

  lemma ExactPasses(events: seq<TraceEvent>, v: Variant, c: seq<Node>)
    requires Table(c, Edges(v)) && 3 <= |c| && ExactlyOrdered(events, c)
    ensures CardinalityVerdict(events, v).Pass? && PrecedenceVerdict(events, Edges(v)).Pass?
  {
    hide Edges, Numbered, LabelsFit, StartsThird, CardinalityVerdict, NodeIndex;
    CardinalityMeansCounts(events, v, c);
    assert LabelKinds(Projection(events)) == NodeKinds(WithoutStart(c));
    forall e | e in Edges(v) ensures EdgeHolds(events, e) {
      assert Forward(c, e);
      var i, j :| 0 <= i < j < |c| && c[i] == e.0 && c[j] == e.1;
      PlaceOf(events, c, i);
      PlaceOf(events, c, j);
      SpotsFacts(events);
    }
    PrecedencePasses(events, Edges(v));
  }

  // n rising members of a rising sequence of length n are all of it.
  lemma {:induction false} RisingCover(s: seq<nat>, t: seq<nat>, i: nat)
    requires |s| == |t| && i < |s|
    requires forall j, k :: 0 <= j < k < |s| ==> s[j] < s[k]
    requires forall j, k :: 0 <= j < k < |t| ==> t[j] < t[k]
    requires forall x :: x in t ==> x in s
    ensures s[i] <= t[i]
  {
    assert t[i] in s;
    var k :| 0 <= k < |s| && s[k] == t[i];
    if i > 0 { RisingCover(s, t, i - 1); }
  }

  lemma {:induction false} RisingCoverBack(s: seq<nat>, t: seq<nat>, i: nat)
    requires |s| == |t| && i < |s|
    requires forall j, k :: 0 <= j < k < |s| ==> s[j] < s[k]
    requires forall j, k :: 0 <= j < k < |t| ==> t[j] < t[k]
    requires forall x :: x in t ==> x in s
    ensures t[i] <= s[i]
    decreases |s| - i
  {
    assert t[i] in s;
    var k :| 0 <= k < |s| && s[k] == t[i];
    if i + 1 < |s| { RisingCoverBack(s, t, i + 1); }
  }

  // Where the chain's nodes were found.
  function Found(events: seq<TraceEvent>, c: seq<Node>): (r: seq<nat>)
    requires forall n :: n in c ==> 1 <= n.occurrence && NodeIndex(events, n).Some?
    ensures |r| == |c| && forall i :: 0 <= i < |c| ==> r[i] == NodeIndex(events, c[i]).value
  {
    seq(|c|, i requires 0 <= i < |c| => assert c[i] in c; NodeIndex(events, c[i]).value)
  }

  lemma NodesRise(events: seq<TraceEvent>, c: seq<Node>, edges: seq<Edge>)
    requires Ordered(c, edges) && 2 <= |c| && forall e :: e in edges ==> EdgeHolds(events, e)
    ensures forall n :: n in c ==> 1 <= n.occurrence && NodeIndex(events, n).Some?
    ensures forall i, j :: 0 <= i < j < |c| ==> Found(events, c)[i] < Found(events, c)[j]
  {
    hide NodeIndex;
    forall i | 0 <= i < |c| ensures 1 <= c[i].occurrence && NodeIndex(events, c[i]).Some? {
      var k := if i == 0 then 0 else i - 1;
      assert Pairs(c)[k] in Pairs(c);
    }
    var f := Found(events, c);
    forall i, j | 0 <= i < |c| && i < j < |c| ensures j == i + 1 ==> f[i] < f[j] {
      if j == i + 1 { assert Pairs(c)[i] in Pairs(c); }
    }
    NeighboursRise(f);
  }

  lemma NeighboursRise(f: seq<nat>)
    requires forall i, j | 0 <= i < |f| && i < j < |f| :: j == i + 1 ==> f[i] < f[j]
    ensures forall i, j :: 0 <= i < j < |f| ==> f[i] < f[j]
  {
    forall i, j | 0 <= i < j < |f| ensures f[i] < f[j] { RiseBetween(f, i, j); }
  }

  lemma {:induction false} RiseBetween(f: seq<nat>, i: nat, j: nat)
    requires i < j < |f|
    requires forall i, j | 0 <= i < |f| && i < j < |f| :: j == i + 1 ==> f[i] < f[j]
    ensures f[i] < f[j]
  {
    var k := j - 1;
    assert f[k] < f[j];
    if i < k { RiseBetween(f, i, k); }
  }

  // Where a position of the shortened chain comes from.
  function ChainIndex(i: nat): nat { if i < 2 then i else i + 1 }

  lemma FoundIsSpot(events: seq<TraceEvent>, n: Node)
    requires 1 <= n.occurrence && NodeIndex(events, n).Some? && Safety(n.kind)
    ensures NodeIndex(events, n).value in Spots(events)
  {
    NodeIsSeen(events, n);
    SpotsFacts(events);
  }

  lemma RisingSame(s: seq<nat>, t: seq<nat>)
    requires |s| == |t| && forall x :: x in t ==> x in s
    requires forall j, k :: 0 <= j < k < |s| ==> s[j] < s[k]
    requires forall j, k :: 0 <= j < k < |t| ==> t[j] < t[k]
    ensures s == t
  {
    forall i | 0 <= i < |s| ensures s[i] == t[i] {
      RisingCover(s, t, i);
      RisingCoverBack(s, t, i);
    }
  }

  lemma SafeFoundAreSpots(events: seq<TraceEvent>, c: seq<Node>, f: seq<nat>)
    requires StartsThird(c) && |f| == |c| && |Spots(events)| == |c| - 1
    requires forall i :: 0 <= i < |c| ==> 1 <= c[i].occurrence && NodeIndex(events, c[i]) == Some(f[i])
    requires forall i, j :: 0 <= i < j < |f| ==> f[i] < f[j]
    ensures Spots(events) == f[..2] + f[3..]
  {
    SpotsFacts(events);
    hide NodeIndex, Spots, Projection;
    var t := f[..2] + f[3..];
    forall i | 0 <= i < |t| ensures t[i] in Spots(events) {
      var j := ChainIndex(i);
      assert t[i] == f[j];
      FoundIsSpot(events, c[j]);
    }
    RisingSame(Spots(events), t);
  }

  lemma LabelAtSpot(events: seq<TraceEvent>, c: seq<Node>, f: seq<nat>, i: nat)
    requires StartsThird(c) && LabelsFit(c) && |f| == |c| && i < |c| - 1
    requires forall i :: 0 <= i < |c| ==> 1 <= c[i].occurrence && NodeIndex(events, c[i]) == Some(f[i])
    requires Spots(events) == f[..2] + f[3..]
    ensures |Projection(events)| == |c| - 1 && Projection(events)[i] == NodeLabel(c[ChainIndex(i)])
  {
    SpotsFacts(events);
    hide NodeIndex, Spots, Projection;
    var j := ChainIndex(i);
    assert SpotOk(events, i) && Spots(events)[i] == f[j] && c[j] in c;
    NodeIsSeen(events, c[j]);
    MatchIsLabel(events[f[j]], c[j]);
  }

  lemma RisingIsExact(events: seq<TraceEvent>, c: seq<Node>, f: seq<nat>)
    requires StartsThird(c) && LabelsFit(c) && |f| == |c| && |Spots(events)| == |c| - 1
    requires forall i :: 0 <= i < |c| ==> 1 <= c[i].occurrence && NodeIndex(events, c[i]) == Some(f[i])
    requires forall i, j :: 0 <= i < j < |f| ==> f[i] < f[j]
    ensures ExactlyOrdered(events, c)
  {
    hide NodeIndex, Spots, Projection, LabelsFit;
    SafeFoundAreSpots(events, c, f);
    var w := WithoutStart(c);
    LabelAtSpot(events, c, f, 0);
    forall i | 0 <= i < |w| ensures Projection(events)[i] == NodeLabels(w)[i] {
      LabelAtSpot(events, c, f, i);
      assert w[i] == c[ChainIndex(i)];
    }
    assert f[1] < f[2] < f[3];
  }

  lemma OrderedCounts(c: seq<Node>, edges: seq<Edge>)
    requires Ordered(c, edges)
    ensures Countable(edges)
  {
  }

  lemma PassingIsExact(events: seq<TraceEvent>, v: Variant, c: seq<Node>)
    requires Table(c, Edges(v)) && 3 <= |c|
    requires CardinalityVerdict(events, v).Pass? && PrecedenceVerdict(events, Edges(v)).Pass?
    ensures ExactlyOrdered(events, c)
  {
    hide Edges, CardinalityVerdict, PrecedenceVerdict, NodeIndex, Spots, Projection, EdgeHolds, ExactlyOrdered,
      Ordered, Numbered, LabelsFit;
    CardinalityMeansCounts(events, v, c);
    SameCountsSameLength(events, c);
    assert Countable(Edges(v)) by { OrderedCounts(c, Edges(v)); }
    PrecedencePasses(events, Edges(v));
    NodesRise(events, c, Edges(v));
    RisingIsExact(events, c, Found(events, c));
  }

  // The two checks together accept a trace of any length exactly when its safety
  // events are the one sequence of the variant and understanding started in place.
  lemma GradedExactly(events: seq<TraceEvent>, v: Variant)
    ensures Countable(Edges(v)) && 3 <= |Order(v)|
    ensures CardinalityVerdict(events, v).Pass? && PrecedenceVerdict(events, Edges(v)).Pass?
            <==> ExactlyOrdered(events, Order(v))
  {
    VariantTable(v);
    hide Edges, Order, CardinalityVerdict, PrecedenceVerdict, ExactlyOrdered, Numbered, LabelsFit;
    LongEnough(Order(v));
    if CardinalityVerdict(events, v).Pass? && PrecedenceVerdict(events, Edges(v)).Pass? {
      PassingIsExact(events, v, Order(v));
    }
    if ExactlyOrdered(events, Order(v)) { ExactPasses(events, v, Order(v)); }
  }
}
