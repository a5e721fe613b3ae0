// What the model proposes: one contextualised request, candidate Goal Deltas and
// one next move.

module Proposals {
  import opened Records
  import opened Understanding

  // ----- JSON arguments -----

  datatype Json =
    | JsonText(text: string) | JsonAtom(atom: int)
    | JsonArray(items: seq<Json>) | JsonObject(fields: map<string, Json>)

  const TRUSTED_FIELDS: set<string> := {
    "auth_scope", "auth_scopes", "authorization_scope", "customer_id", "idempotency_key", "owner_customer_id",
    "run_id", "session_id", "session_ref_hash", "subject_ref", "trusted_context_ref"}

  // Case folding, exact wherever the result can be an ASCII name.
  function FoldChar(c: char): string {
    if 'A' <= c <= 'Z' then [c - 'A' + 'a']
    else match c as int
      case 0x017F => "s"
      case 0x212A => "k"
      case 0x00DF => "ss"
      case 0x1E9E => "ss"
      case 0xFB00 => "ff"
      case 0xFB01 => "fi"
      case 0xFB02 => "fl"
      case 0xFB03 => "ffi"
      case 0xFB04 => "ffl"
      case 0xFB05 => "st"
      case 0xFB06 => "st"
      case _ => [c]
  }

  function CaseFold(s: string): string { if s == "" then "" else FoldChar(s[0]) + CaseFold(s[1..]) }

  predicate TrustedName(name: string) { CaseFold(name) in TRUSTED_FIELDS }

  // No object at any depth has a key that folds to a trusted name.
  predicate FreeOfTrusted(value: Json) {
    match value
    case JsonText(_) => true
    case JsonAtom(_) => true
    case JsonArray(items) => forall i :: 0 <= i < |items| ==> FreeOfTrusted(items[i])
    case JsonObject(fields) => forall k :: k in fields ==> !TrustedName(k) && FreeOfTrusted(fields[k])
  }

  type Arguments = map<string, Json>

  predicate ArgumentsFree(arguments: Arguments) {
    forall k :: k in arguments ==> !TrustedName(k) && FreeOfTrusted(arguments[k])
  }

  // ----- What the trusted names are, and where they are looked for -----

  datatype Step = Field(name: string) | Item(index: nat)

  // The value a path of keys and positions leads to.
  function At(value: Json, path: seq<Step>): Option<Json> {
    if path == [] then Some(value)
    else match (value, path[0])
      case (JsonObject(fields), Field(k)) => if k in fields then At(fields[k], path[1..]) else None
      case (JsonArray(items), Item(i)) => if i < |items| then At(items[i], path[1..]) else None
      case _ => None
  }

  // A trusted name is a key of the object the path leads to.
  predicate TrustedAt(value: Json, path: seq<Step>, key: string) {
    At(value, path).Some? && At(value, path).value.JsonObject? && key in At(value, path).value.fields && TrustedName(key)
  }

  lemma {:induction false} FreeHasNone(value: Json, path: seq<Step>, key: string)
    requires FreeOfTrusted(value)
    ensures !TrustedAt(value, path, key)
    decreases path
  {
    hide TrustedName;
    if path != [] {
      match (value, path[0]) {
        case (JsonObject(fields), Field(k)) => if k in fields { FreeHasNone(fields[k], path[1..], key); }
        case (JsonArray(items), Item(i)) => if i < |items| { FreeHasNone(items[i], path[1..], key); }
        case _ =>
      }
    }
  }

  lemma {:induction false} TrustedIsSomewhere(value: Json) returns (path: seq<Step>, key: string)
    requires !FreeOfTrusted(value)
    ensures TrustedAt(value, path, key)
    decreases value
  {
    hide TrustedName;
    match value {
      case JsonArray(items) =>
        var i :| 0 <= i < |items| && !FreeOfTrusted(items[i]);
        var rest, k := TrustedIsSomewhere(items[i]);
        path, key := [Item(i)] + rest, k;
        assert path[1..] == rest;
      case JsonObject(fields) =>
        var k :| k in fields && !(!TrustedName(k) && FreeOfTrusted(fields[k]));
        if TrustedName(k) {
          path, key := [], k;
        } else {
          var rest, found := TrustedIsSomewhere(fields[k]);
          path, key := [Field(k)] + rest, found;
          assert path[1..] == rest;
        }
    }
  }

  // Arguments are free of trusted names exactly when no object at any depth has one as a key.
  lemma FreeExactly(arguments: Arguments)
    ensures ArgumentsFree(arguments) <==> forall path, key :: !TrustedAt(JsonObject(arguments), path, key)
  {
    hide TrustedAt, TrustedName;
    var value := JsonObject(arguments);
    assert ArgumentsFree(arguments) <==> FreeOfTrusted(value);
    if FreeOfTrusted(value) {
      forall path, key ensures !TrustedAt(value, path, key) { FreeHasNone(value, path, key); }
    } else {
      var path, key := TrustedIsSomewhere(value);
    }
  }

  predicate Ascii(s: string) { forall i :: 0 <= i < |s| ==> (s[i] as int) < 128 }

  // The same letters, upper or lower case.
  predicate SameLetters(s: string, lower: string) {
    |s| == |lower| && forall i :: 0 <= i < |s| ==> s[i] == lower[i] || ('a' <= lower[i] <= 'z' && s[i] == lower[i] - 'a' + 'A')
  }

  lemma {:induction false} AsciiFolds(s: string)
    requires Ascii(s)
    ensures |CaseFold(s)| == |s|
    ensures forall i :: 0 <= i < |s| ==> CaseFold(s)[i] == if 'A' <= s[i] <= 'Z' then s[i] - 'A' + 'a' else s[i]
  {
    if s != "" {
      AsciiFolds(s[1..]);
      assert FoldChar(s[0]) == [if 'A' <= s[0] <= 'Z' then s[0] - 'A' + 'a' else s[0]];
      assert forall i :: 1 <= i < |s| ==> CaseFold(s)[i] == CaseFold(s[1..])[i - 1];
    }
  }

  predicate Lower(t: string) { forall i :: 0 <= i < |t| ==> !('A' <= t[i] <= 'Z') }

  lemma FoldsTo(name: string, t: string)
    requires Ascii(name) && Lower(t)
    ensures CaseFold(name) == t <==> SameLetters(name, t)
  {
    AsciiFolds(name);
    hide CaseFold;
    if SameLetters(name, t) {
      forall i | 0 <= i < |t| ensures CaseFold(name)[i] == t[i] { }
    }
  }

  lemma FoldsInto(name: string, names: set<string>)
    requires Ascii(name) && forall t :: t in names ==> Lower(t)
    ensures CaseFold(name) in names <==> exists t :: t in names && SameLetters(name, t)
  {
    hide CaseFold, SameLetters, Lower, Ascii;
    forall t | t in names ensures CaseFold(name) == t <==> SameLetters(name, t) { FoldsTo(name, t); }
    if CaseFold(name) in names { assert SameLetters(name, CaseFold(name)); }
  }

  lemma TrustedAreLower()
    ensures forall t :: t in TRUSTED_FIELDS ==> Lower(t)
  {
  }

  // Among ASCII names exactly the trusted ones are refused, in any case.
  lemma TrustedExactly(name: string)
    requires Ascii(name)
    ensures TrustedName(name) <==> exists t :: t in TRUSTED_FIELDS && SameLetters(name, t)
  {
    hide CaseFold, SameLetters, Lower, Ascii;
    TrustedAreLower();
    FoldsInto(name, TRUSTED_FIELDS);
  }

  // ----- Candidates -----

  datatype MoveKind = CallTool | AskUser | Finish | Escalate

  datatype NextMove = NextMove(
    kind: MoveKind, tool: Option<string>, arguments: Option<Arguments>, base: Option<nat>)
  {
    predicate Valid() {
      && (kind.CallTool? <==> tool.Some?) && (kind.CallTool? <==> arguments.Some?)
      && (tool.Some? ==> tool.value != "")
      && (arguments.Some? ==> ArgumentsFree(arguments.value))
    }
  }

  datatype Reference = Reference(value: string, source: ReferenceSource, sourceRef: Id, quote: string)

  datatype ProposedInput = ProposedInput(value: string, sourceRef: Id, quote: string)

  datatype Candidate = Candidate(candidateId: Id, goalPatch: string, inputs: seq<ProposedInput>)

  datatype Contextualization = Contextualization(
    text: string, references: seq<Reference>, uncertainties: seq<Uncertainty>, sourceRefs: seq<Id>)
  {
    predicate Valid() {
      && text != "" && 1 <= |sourceRefs| <= 8 && Distinct(sourceRefs)
      && (forall r :: r in references ==> r.value != "" && 1 <= |r.quote| <= 128 && r.sourceRef in sourceRefs)
      && (forall u :: u in uncertainties ==> u.Valid() && forall m :: m in u.sourceRefs ==> m in sourceRefs)
    }
  }

  datatype ModelInput = ModelInput(runId: Id, messageRef: Id, query: string, recentRefs: seq<Id>)

  datatype ModelOutput = ModelOutput(
    messageRef: Id, context: Contextualization, candidates: seq<Candidate>, move: NextMove)
  {
    // The candidate graph is locally bound; a new goal has no base version.
    predicate Valid() {
      && context.Valid() && move.Valid() && move.base.None?
      && messageRef in context.sourceRefs
      && (forall i, j :: 0 <= i < j < |candidates| ==> candidates[i].candidateId != candidates[j].candidateId)
      && (forall c :: c in candidates ==> CandidateOk(c))
    }

    predicate CandidateOk(c: Candidate) {
      && c.goalPatch != "" && |c.inputs| == 1
      && c.inputs[0].value != "" && 1 <= |c.inputs[0].quote| <= 128 && c.inputs[0].sourceRef == messageRef
    }
  }
}
