// The cardinality and precedence checks accept exactly one projection per variant.

module TraceExact {
  import opened Records
  import opened TraceGrader

  // ----- What every edge table has in common -----

  function Pairs(c: seq<Node>): (r: seq<Edge>)
    requires c != []
    ensures |r| == |c| - 1
    ensures forall i :: 0 <= i < |r| ==> r[i] == (c[i], c[i + 1])
  {
    seq(|c| - 1, i requires 0 <= i < |c| - 1 => (c[i], c[i + 1]))
  }

  // A total order of distinct nodes whose neighbours are all edges, with no edge against it.
  predicate Ordered(c: seq<Node>, edges: seq<Edge>) {
    && c != [] && Countable(edges)
    && (forall e :: e in Pairs(c) ==> e in edges)
    && forall e :: e in edges ==> Forward(c, e)
  }

  predicate Forward(c: seq<Node>, e: Edge) {
    exists i, j :: 0 <= i < j < |c| && c[i] == e.0 && c[j] == e.1
  }

  // Occurrences of one label are numbered from one, in order.
  predicate Numbered(c: seq<Node>) {
    && Distinct(c)
    && (forall i :: 0 <= i < |c| ==> 1 <= c[i].occurrence)
    && forall i :: 0 <= i < |c| && 1 < c[i].occurrence ==> HasEarlier(c[..i], c[i])
  }

  predicate HasEarlier(c: seq<Node>, n: Node)
    requires 1 < n.occurrence
  {
    n.(occurrence := n.occurrence - 1) in c
  }

  predicate LabelsFit(c: seq<Node>) {
    forall n :: n in c ==> (n.kind.ContextManifestRecorded? <==> !n.purpose.AnyPurpose?)
  }

  predicate StartsThird(c: seq<Node>) {
    && 4 <= |c| && c[2] == RU_STARTED && c[1] == RUN_STARTED && c[3] == RU_MANIFEST
    && forall i :: 0 <= i < |c| && i != 2 ==> Safety(c[i].kind)
  }

  predicate Table(c: seq<Node>, edges: seq<Edge>) {
    Ordered(c, edges) && Numbered(c) && LabelsFit(c) && StartsThird(c)
  }

  lemma SuccessNumbered()
    ensures Numbered(Order(SuccessPath))
  {
    var c := Order(SuccessPath);
    assert Distinct(c);
    assert forall i :: 0 <= i < |c| ==> 1 <= c[i].occurrence && (1 < c[i].occurrence ==> i == 19);
    assert c[19] == TASK_2 && TASK_1 == c[..19][8];
  }

  lemma SuccessTable()
    ensures Edges(SuccessPath) == Pairs(Order(SuccessPath))
  {
  }

  lemma SuccessLabels()
    ensures LabelsFit(Order(SuccessPath))
  {
  }

  lemma SuccessStart()
    ensures StartsThird(Order(SuccessPath))
  {
  }

  lemma FailedToolNumbered()
    ensures Numbered(Order(ForeignOrder))
  {
    var c := Order(ForeignOrder);
    assert Distinct(c);
    assert forall i :: 0 <= i < |c| ==> 1 <= c[i].occurrence && (1 < c[i].occurrence ==> i == 16);
    assert c[16] == TASK_2 && TASK_1 == c[..16][8];
  }

  lemma FailedToolTable()
    ensures Edges(ForeignOrder) == Pairs(Order(ForeignOrder))
  {
  }

  lemma FailedToolLabels()
    ensures LabelsFit(Order(ForeignOrder))
  {
  }

  lemma FailedToolStart()
    ensures StartsThird(Order(ForeignOrder))
  {
  }

  lemma GatewayNumbered()
    ensures Numbered(Order(ArgumentBindingRejected))
  {
    var c := Order(ArgumentBindingRejected);
    assert Distinct(c);
    assert forall i :: 0 <= i < |c| ==> 1 <= c[i].occurrence && (1 < c[i].occurrence ==> i == 12);
    assert c[12] == TASK_2 && TASK_1 == c[..12][8];
  }

  lemma GatewayTable()
    ensures Edges(ArgumentBindingRejected) == Pairs(Order(ArgumentBindingRejected))
  {
  }

  lemma GatewayLabels()
    ensures LabelsFit(Order(ArgumentBindingRejected))
  {
  }

  lemma GatewayStart()
    ensures StartsThird(Order(ArgumentBindingRejected))
  {
  }

  lemma TasklessNumbered()
    ensures Numbered(Order(InputValidationRejected))
  {
    var c := Order(InputValidationRejected);
    assert Distinct(c);
    assert forall i :: 0 <= i < |c| ==> 1 <= c[i].occurrence && (1 < c[i].occurrence ==> false);
  }

  lemma TasklessTable()
    ensures Edges(InputValidationRejected) == Pairs(Order(InputValidationRejected))
  {
  }

  lemma TasklessLabels()
    ensures LabelsFit(Order(InputValidationRejected))
  {
  }

  lemma TasklessStart()
    ensures StartsThird(Order(InputValidationRejected))
  {
  }

  lemma StaleNumbered()
    ensures Numbered(Order(StaleStateRejected))
  {
    var c := Order(StaleStateRejected);
    assert Distinct(c);
    assert forall i :: 0 <= i < |c| ==> 1 <= c[i].occurrence && (1 < c[i].occurrence ==> i == 10 || i == 13);
    assert c[10] == TASK_2 && TASK_1 == c[..10][8];
    assert c[13] == TASK_3 && TASK_2 == c[..13][10];
  }

  lemma StaleTable()
    ensures Edges(StaleStateRejected) == Pairs(Order(StaleStateRejected))
  {
  }

  lemma StaleLabels()
    ensures LabelsFit(Order(StaleStateRejected))
  {
  }

  lemma StaleStart()
    ensures StartsThird(Order(StaleStateRejected))
  {
  }

  lemma PresentationNumbered()
    ensures Numbered(Order(PresentationProtocolRejected))
  {
    var c := Order(PresentationProtocolRejected);
    assert Distinct(c);
    assert forall i :: 0 <= i < |c| ==> 1 <= c[i].occurrence && (1 < c[i].occurrence ==> i == 18);
    assert c[18] == TASK_2 && TASK_1 == c[..18][8];
  }

  lemma PresentationTable()
    ensures var c := Order(PresentationProtocolRejected);
            && |c| == 21 && c[15] == OBSERVATION && c[17] == RESPONSE
            && Edges(PresentationProtocolRejected)
               == Pairs(c)[..17] + [(OBSERVATION, RESPONSE)] + Pairs(c)[17..]
  {
  }

  lemma PresentationLabels()
    ensures LabelsFit(Order(PresentationProtocolRejected))
  {
  }

  lemma PresentationStart()
    ensures StartsThird(Order(PresentationProtocolRejected))
  {
  }

  lemma PairGoesForward(c: seq<Node>, e: Edge)
    requires c != [] && Numbered(c) && e in Pairs(c)
    ensures Forward(c, e) && 1 <= e.0.occurrence && 1 <= e.1.occurrence
  {
    var i :| 0 <= i < |Pairs(c)| && Pairs(c)[i] == e;
    var j := i + 1;
    assert c[i] == e.0 && c[j] == e.1;
  }

  lemma InsertedMembers<T>(s: seq<T>, extra: seq<T>, k: nat, x: T)
    requires k <= |s|
    ensures x in s[..k] + extra + s[k..] <==> x in s || x in extra
  {
    assert s == s[..k] + s[k..];
  }

  lemma PairsOrdered(c: seq<Node>, edges: seq<Edge>, extra: seq<Edge>, k: nat)
    requires Numbered(c) && c != [] && k <= |Pairs(c)| && edges == Pairs(c)[..k] + extra + Pairs(c)[k..]
    requires Countable(extra) && forall e :: e in extra ==> Forward(c, e)
    ensures Ordered(c, edges)
  {
    hide Numbered, Forward, Pairs;
    forall e ensures e in edges <==> e in Pairs(c) || e in extra { InsertedMembers(Pairs(c), extra, k, e); }
    forall e | e in Pairs(c) ensures Forward(c, e) && 1 <= e.0.occurrence && 1 <= e.1.occurrence { PairGoesForward(c, e); }
  }

  // Variants that share a table.
  lemma OrderShared()
    ensures Order(NonexistentOrder) == Order(ForeignOrder) && Edges(NonexistentOrder) == Edges(ForeignOrder)
    ensures Order(UnknownToolRejected) == Order(ArgumentBindingRejected)
    ensures Edges(UnknownToolRejected) == Edges(ArgumentBindingRejected)
    ensures Order(ProviderProtocolBeforeCandidate) == Order(InputValidationRejected)
    ensures Edges(ProviderProtocolBeforeCandidate) == Edges(InputValidationRejected)
  {
  }

  // Every edge table is the list of neighbours of its order, one of them with a redundant edge.
  lemma VariantTable(v: Variant)
    ensures Table(Order(v), Edges(v))
  {
    OrderShared();
    hide Edges, Order, Numbered, LabelsFit, StartsThird, Ordered, Pairs;
    match v
    case SuccessPath => SuccessNumbered(); SuccessTable(); SuccessLabels(); SuccessStart(); JustPairs(v);
    case ForeignOrder => FailedToolNumbered(); FailedToolTable(); FailedToolLabels(); FailedToolStart(); JustPairs(v);
    case NonexistentOrder => FailedToolNumbered(); FailedToolTable(); FailedToolLabels(); FailedToolStart(); JustPairs(v);
    case ArgumentBindingRejected => GatewayNumbered(); GatewayTable(); GatewayLabels(); GatewayStart(); JustPairs(v);
    case ProviderProtocolBeforeCandidate => TasklessNumbered(); TasklessTable(); TasklessLabels(); TasklessStart(); JustPairs(v);
    case InputValidationRejected => TasklessNumbered(); TasklessTable(); TasklessLabels(); TasklessStart(); JustPairs(v);
    case UnknownToolRejected => GatewayNumbered(); GatewayTable(); GatewayLabels(); GatewayStart(); JustPairs(v);
    case StaleStateRejected => StaleNumbered(); StaleTable(); StaleLabels(); StaleStart(); JustPairs(v);
    case PresentationProtocolRejected =>
      PresentationNumbered(); PresentationLabels(); PresentationStart(); PresentationOrdered();
  }

  lemma PresentationOrdered()
    requires Numbered(Order(PresentationProtocolRejected))
    ensures Ordered(Order(PresentationProtocolRejected), Edges(PresentationProtocolRejected))
  {
    PresentationTable();
    hide Edges, Order, Numbered;
    var c := Order(PresentationProtocolRejected);
    assert Forward(c, (OBSERVATION, RESPONSE)) by { assert c[15] == OBSERVATION && c[17] == RESPONSE; }
    PairsOrdered(c, Edges(PresentationProtocolRejected), [(OBSERVATION, RESPONSE)], 17);
  }

  lemma JustPairs(v: Variant)
    requires Numbered(Order(v)) && StartsThird(Order(v)) && Edges(v) == Pairs(Order(v))
    ensures Ordered(Order(v), Edges(v))
  {
    hide Order, Edges;
    var c := Order(v);
    assert Pairs(c)[..0] + [] + Pairs(c)[0..] == Pairs(c);
    PairsOrdered(c, Edges(v), [], 0);
  }
}
