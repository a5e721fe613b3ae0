// Locating a quote in the message it was taken from.

module SourceSpan {
  import opened Records
  import opened OrderId

  predicate OccursAt(text: string, part: string, at: nat) {
    at + |part| <= |text| && text[at..at + |part|] == part
  }

  predicate Substring(part: string, text: string) { exists i :: 0 <= i <= |text| && OccursAt(text, part, i) }

  // Overlapping occurrences count separately.
  predicate OccursOnce(text: string, part: string) {
    exists i :: 0 <= i <= |text| && OccursAt(text, part, i)
                && forall j :: 0 <= j <= |text| && OccursAt(text, part, j) ==> j == i
  }

  // The first occurrence at or after a position.
  function Find(text: string, part: string, from: nat): (r: Option<nat>)
    requires from <= |text|
    ensures r.Some? ==> from <= r.value <= |text| && OccursAt(text, part, r.value)
    ensures forall j :: from <= j <= |text| && OccursAt(text, part, j) ==> r.Some? && r.value <= j
    decreases |text| - from
  {
    if OccursAt(text, part, from) then Some(from)
    else if from < |text| then Find(text, part, from + 1)
    else None
  }

  // An order id inside a text that no letter or digit touches on either side.
  predicate OrderIdAt(text: string, start: nat, end: nat) {
    && start + 6 <= end <= |text| && end <= start + 22
    && (text[start] == 'O' || text[start] == 'o') && text[start + 1] == '-'
    && (forall i :: start + 2 <= i < end ==> IsDigit(text[i]))
    && (0 < start ==> !IsAlnum(text[start - 1]))
    && (end < |text| ==> !IsAlnum(text[end]))
  }

  predicate MentionsOrderId(text: string, orderId: string) {
    exists s, e :: 0 <= s <= e <= |text| && OrderIdAt(text, s, e) && Normalize(text[s..e]) == Some(orderId)
  }

  // Whether the quote carries the candidate: as an order id when it is one, verbatim when not.
  predicate Carries(quote: string, candidate: string) {
    match Normalize(candidate)
    case Some(orderId) => MentionsOrderId(quote, orderId)
    case None => candidate != "" && Substring(candidate, quote)
  }

  // The characters of the order id, its first letter in either case, with no letter or digit against them.
  predicate StandsAt(text: string, orderId: string, at: nat) {
    && IsOrderId(orderId) && at + |orderId| <= |text|
    && (text[at] == 'o' || text[at] == 'O') && text[at + 1..at + |orderId|] == orderId[1..]
    && (0 < at ==> !IsAlnum(text[at - 1])) && (at + |orderId| < |text| ==> !IsAlnum(text[at + |orderId|]))
  }

  lemma StandingIsMention(text: string, orderId: string, at: nat)
    requires StandsAt(text, orderId, at)
    ensures OrderIdAt(text, at, at + |orderId|) && Spells(text[at..at + |orderId|], orderId)
  {
    hide IsAlnum;
    var end := at + |orderId|;
    assert text[at + 1] == text[at + 1..end][0] == orderId[1..][0] == orderId[1];
    forall i | at + 2 <= i < end ensures IsDigit(text[i]) {
      assert text[i] == text[at + 1..end][i - at - 1] == orderId[1..][i - at - 1] == orderId[i - at];
    }
    assert text[at..end][1..] == text[at + 1..end];
  }

  // What the pattern matches spells its own normal form.
  lemma MatchIsSpelling(t: string, orderId: string)
    requires OrderIdAt(t, 0, |t|) && Normalize(t) == Some(orderId)
    ensures Spells(t, orderId)
  {
    hide IsAlnum, IsSpace, Normalize;
    var capital := "O-" + t[2..];
    forall i | 2 <= i < |capital| ensures IsDigit(capital[i]) { assert capital[i] == t[i]; }
    CapitalIsSpelled(t, capital);
    SpellingIsNamed(t, capital);
    NormalizesExactly(t, capital);
  }

  lemma MatchAlone(text: string, start: nat, end: nat)
    requires OrderIdAt(text, start, end)
    ensures OrderIdAt(text[start..end], 0, end - start)
  {
    hide IsAlnum, IsDigit;
    var t := text[start..end];
    forall i | 0 <= i < |t| ensures t[i] == text[start + i] { }
  }

  lemma MentionIsStanding(text: string, orderId: string, start: nat, end: nat)
    requires OrderIdAt(text, start, end) && Normalize(text[start..end]) == Some(orderId)
    ensures StandsAt(text, orderId, start)
  {
    hide IsAlnum, IsDigit, IsOrderId, Normalize;
    var t := text[start..end];
    MatchAlone(text, start, end);
    MatchIsSpelling(t, orderId);
    assert t[0] == text[start] && t[1..] == text[start + 1..end];
  }

  // A text mentions an order id exactly when its characters stand there on their own.
  lemma MentionedExactly(text: string, orderId: string)
    ensures MentionsOrderId(text, orderId) <==> exists at :: 0 <= at < |text| && StandsAt(text, orderId, at)
  {
    hide OrderIdAt, StandsAt, Normalize;
    if MentionsOrderId(text, orderId) {
      var s, e :| 0 <= s <= e <= |text| && OrderIdAt(text, s, e) && Normalize(text[s..e]) == Some(orderId);
      MentionIsStanding(text, orderId, s, e);
      assert s < |text| by { StandsInside(text, orderId, s); }
    }
    if at :| 0 <= at < |text| && StandsAt(text, orderId, at) {
      StandsInside(text, orderId, at);
      StandingIsMention(text, orderId, at);
      var part := text[at..at + |orderId|];
      SpellingIsNamed(part, orderId);
      NormalizesExactly(part, orderId);
    }
  }

  lemma StandsInside(text: string, orderId: string, at: nat)
    requires StandsAt(text, orderId, at)
    ensures at < at + |orderId| <= |text|
  {
  }

  // A quote carries a candidate that names an order id exactly when the order id stands
  // in it, and any other candidate when it holds it verbatim.
  lemma CarriesExactly(quote: string, candidate: string)
    ensures Carries(quote, candidate) <==>
              if exists orderId :: Names(candidate, orderId)
              then exists orderId, at :: Names(candidate, orderId) && 0 <= at < |quote| && StandsAt(quote, orderId, at)
              else candidate != "" && Substring(candidate, quote)
  {
    hide Normalize, MentionsOrderId, StandsAt, Names, Substring;
    forall orderId ensures Normalize(candidate) == Some(orderId) <==> Names(candidate, orderId) {
      NormalizesExactly(candidate, orderId);
    }
    match Normalize(candidate) {
      case Some(orderId) =>
        assert Names(candidate, orderId);
        MentionedExactly(quote, orderId);
      case None =>
    }
  }

  datatype Span = Span(start: nat, end: nat)

  predicate Locatable(message: string, quote: string, candidate: string) {
    quote != "" && quote != message && OccursOnce(message, quote) && Carries(quote, candidate)
  }

  // The search loop; it gives up at the second occurrence.
  method OnlyOccurrence(message: string, quote: string) returns (r: Option<nat>)
    requires quote != ""
    ensures r.Some? <==> OccursOnce(message, quote)
    ensures r.Some? ==> r.value <= |message| && OccursAt(message, quote, r.value)
  {
    hide OccursAt;
    var occurrences: seq<nat>, from: nat := [], 0;
    while true
      invariant from <= |message| && |occurrences| <= 1
      invariant occurrences == [] ==> from == 0
      invariant |occurrences| == 1 ==> from == occurrences[0] + 1 && OccursAt(message, quote, occurrences[0])
      invariant forall j :: 0 <= j < from && OccursAt(message, quote, j) ==> occurrences == [j]
      decreases |message| - from
    {
      var position := Find(message, quote, from);
      if position.None? { break; }
      occurrences := occurrences + [position.value];
      if |occurrences| > 1 {
        assert OccursAt(message, quote, occurrences[0]) && OccursAt(message, quote, occurrences[1]);
        return None;
      }
      EndsInside(message, quote, position.value);
      from := position.value + 1;
    }
    if |occurrences| != 1 { return None; }
    assert OccursAt(message, quote, occurrences[0]);
    return Some(occurrences[0]);
  }

  lemma EndsInside(text: string, part: string, at: nat)
    requires part != "" && OccursAt(text, part, at)
    ensures at < |text|
  {
  }

  method ExactSourceSpan(message: string, quote: string, candidate: string) returns (r: Option<Span>)
    ensures r.Some? <==> Locatable(message, quote, candidate)
    ensures r.Some? ==> quote != "" && OccursOnce(message, quote) && r.value == SpanOf(message, quote)
  {
    hide Normalize, MentionsOrderId, OccursOnce, Substring;
    if quote == "" || quote == message { return None; }
    var start := OnlyOccurrence(message, quote);
    if start.None? { return None; }
    match Normalize(candidate) {
      case None => if candidate == "" || !Substring(candidate, quote) { return None; }
      case Some(orderId) => if !MentionsOrderId(quote, orderId) { return None; }
    }
    SpanIsUnique(message, quote, Span(start.value, start.value + |quote|));
    return Some(Span(start.value, start.value + |quote|));
  }

  // The span the search finds, as a function.
  function SpanOf(message: string, quote: string): (r: Span)
    requires quote != "" && OccursOnce(message, quote)
    ensures r.start < r.end <= |message| && message[r.start..r.end] == quote
  {
    var at := Find(message, quote, 0).value;
    Span(at, at + |quote|)
  }

  // The stored span determines the quote: the quote-free record loses nothing.
  lemma SpanKeepsQuote(message: string, quote: string, other: string)
    requires quote != "" && OccursOnce(message, quote) && other != "" && OccursOnce(message, other)
    ensures SpanOf(message, quote) == SpanOf(message, other) <==> quote == other
  {
  }

  // And it is where the search found it.
  lemma SpanIsUnique(message: string, quote: string, span: Span)
    requires quote != "" && OccursOnce(message, quote)
    requires span.start <= span.end <= |message| && message[span.start..span.end] == quote
    ensures span == SpanOf(message, quote)
  {
    assert OccursAt(message, quote, span.start);
  }

  // ----- Where the quote ends, its order id may not -----

  // The place is inside a run of letters and digits.
  predicate Cuts(text: string, at: nat) { 0 < at < |text| && IsAlnum(text[at - 1]) && IsAlnum(text[at]) }

  // An order id of the quote is one of the message, unless the quote was cut out at that very end.
  lemma MentionStands(message: string, quote: string, at: nat, start: nat, end: nat)
    requires OccursAt(message, quote, at) && OrderIdAt(quote, start, end)
    ensures OrderIdAt(message, at + start, at + end) <==>
              (start == 0 ==> !Cuts(message, at)) && (end == |quote| ==> !Cuts(message, at + |quote|))
  {
    assert forall k :: 0 <= k < |quote| ==> quote[k] == message[at..at + |quote|][k] == message[at + k];
    var s, e := at + start, at + end;
    assert message[s] == quote[start] && message[e - 1] == quote[end - 1] && IsDigit(quote[end - 1]);
    assert 0 < start ==> message[s - 1] == quote[start - 1];
    assert end < |quote| ==> message[e] == quote[end];
    forall i | s + 2 <= i < e ensures IsDigit(message[i]) { assert message[i] == quote[i - at]; }
  }

  lemma OnceAtStart(quote: string, more: char)
    requires IsOrderId(quote) && IsDigit(more)
    ensures OccursOnce(quote + [more], quote)
  {
    var message := quote + [more];
    assert OccursAt(message, quote, 0);
    forall j | 0 <= j <= |message| && OccursAt(message, quote, j) ensures j == 0 {
      assert message[j..j + |quote|][0] == message[j];
    }
  }

  lemma LongerNumber(quote: string, more: char, start: nat, end: nat)
    requires IsOrderId(quote) && IsDigit(more) && OrderIdAt(quote + [more], start, end)
    ensures start == 0 && end == |quote| + 1
  {
    hide Normalize;
    var message := quote + [more];
    assert forall i :: 1 <= i < |message| ==> message[i] != 'O' && message[i] != 'o';
    assert forall i :: 2 <= i < |message| ==> IsDigit(message[i]);
  }

  // A quote that ends inside a longer number passes: it names an order the message does not.
  lemma QuoteMayCut(quote: string, more: char)
    requires IsOrderId(quote) && |quote| < 22 && IsDigit(more)
    ensures Locatable(quote + [more], quote, quote)
    ensures MentionsOrderId(quote + [more], quote + [more]) && !MentionsOrderId(quote + [more], quote)
  {
    hide Normalize, OccursOnce;
    var message := quote + [more];
    OnceAtStart(quote, more);
    OrderIdIsNormal(quote);
    OrderIdIsNormal(message);
    assert OrderIdAt(quote, 0, |quote|) && quote[0..|quote|] == quote;
    assert OrderIdAt(message, 0, |message|) && message[0..|message|] == message;
    forall s, e | 0 <= s <= e <= |message| && OrderIdAt(message, s, e) ensures Normalize(message[s..e]) != Some(quote) {
      LongerNumber(quote, more, s, e);
    }
  }
}
