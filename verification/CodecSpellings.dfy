// One way of writing Observations as JSON and reading them again.  A timestamp is
// written with "Z" and read with "Z" or "+00:00".

module CodecSpellings {
  import opened Records
  import opened Proposals
  import opened Codec
  import opened CodecRegistry

  // ----- Numbers in decimal -----

  function Digit(d: nat): char
    requires d < 10
  {
    '0' + d as char
  }

  function Decimal(n: nat): (s: string)
    ensures s != "" && s[0] != '-'
  {
    if n < 10 then [Digit(n)] else Decimal(n / 10) + [Digit(n % 10)]
  }

  function ReadDecimal(s: string): Option<nat> {
    if s == "" || !('0' <= s[|s| - 1] <= '9') then None
    else
      var d := s[|s| - 1] as nat - '0' as nat;
      if |s| == 1 then Some(d)
      else match ReadDecimal(s[..|s| - 1])
        case Some(n) => Some(10 * n + d)
        case None => None
  }

  lemma {:induction false} DecimalComesBack(n: nat)
    ensures ReadDecimal(Decimal(n)) == Some(n)
  {
    if 10 <= n {
      var s := Decimal(n / 10) + [Digit(n % 10)];
      assert s[..|s| - 1] == Decimal(n / 10);
      DecimalComesBack(n / 10);
    }
  }

  // ----- Timestamps -----

  const CANONICAL := "Z"
  const OFFSET := "+00:00"

  function Instant(t: Time): string { if t < 0 then "-" + Decimal(-t) else Decimal(t) }

  function ReadInstant(s: string): Option<Time> {
    if s != "" && s[0] == '-' then
      match ReadDecimal(s[1..])
      case Some(n) => Some(-(n as int))
      case None => None
    else
      match ReadDecimal(s)
      case Some(n) => Some(n)
      case None => None
  }

  function Before(s: string, zone: string): Option<string> {
    if |zone| <= |s| && s[|s| - |zone|..] == zone then Some(s[..|s| - |zone|]) else None
  }

  function ReadTime(s: string): Option<Time> {
    if Before(s, CANONICAL).Some? then ReadInstant(Before(s, CANONICAL).value)
    else if Before(s, OFFSET).Some? then ReadInstant(Before(s, OFFSET).value)
    else None
  }

  lemma TimeComesBack(t: Time, zone: string)
    requires zone == CANONICAL || zone == OFFSET
    ensures ReadTime(Instant(t) + zone) == Some(t)
  {
    hide ReadDecimal, Decimal;
    DecimalComesBack(if t < 0 then -t else t);
    var s := Instant(t) + zone;
    assert s[..|s| - |zone|] == Instant(t) && s[|s| - |zone|..] == zone;
    assert t < 0 ==> Instant(t)[1..] == Decimal(-t);
    assert zone == OFFSET ==> s[|s| - 1] == '0' && s[|s| - 1..] != CANONICAL;
  }

  // ----- Observations -----

  const FIELDS := {"observation_id", "source_tool", "source_resource_ref", "source_version", "recorded_at", "supersedes"}

  function Reference(id: Option<Id>): Json { JsonAtom(if id.Some? then id.value else -1) }

  function Written(o: Observation, zone: string): Json {
    JsonObject(map[
      "observation_id" := JsonAtom(o.observationId), "source_tool" := JsonText(o.sourceTool),
      "source_resource_ref" := JsonText(o.resource), "source_version" := JsonText(o.sourceVersion),
      "recorded_at" := JsonText(Instant(o.recordedAt) + zone), "supersedes" := Reference(o.supersedes)])
  }

  function Read(j: Json): Option<Observation> {
    if !j.JsonObject? || j.fields.Keys != FIELDS then None
    else
      var id, tool, resource := j.fields["observation_id"], j.fields["source_tool"], j.fields["source_resource_ref"];
      var version, at, supersedes := j.fields["source_version"], j.fields["recorded_at"], j.fields["supersedes"];
      if !id.JsonAtom? || id.atom < 0 || !tool.JsonText? || !resource.JsonText? || !version.JsonText? || !at.JsonText?
         || !supersedes.JsonAtom? || ReadTime(at.text).None? then None
      else
        Some(Observation(id.atom, tool.text, resource.text, version.text, ReadTime(at.text).value,
                         if supersedes.atom < 0 then None else Some(supersedes.atom)))
  }

  function Observations(): Storage<Observation> {
    Storage((o: Observation) => Written(o, CANONICAL), (j: Json) => Read(j))
  }

  lemma ReadsBack(o: Observation, zone: string)
    requires zone == CANONICAL || zone == OFFSET
    ensures Read(Written(o, zone)) == Some(o)
  {
    TimeComesBack(o.recordedAt, zone);
    hide ReadTime, Instant;
    assert Written(o, zone).fields.Keys == FIELDS;
  }

  lemma ObservationsAreFaithful()
    ensures Faithful(Observations(), ValidObservation)
  {
    hide Written, Read;
    forall o | ValidObservation(o) ensures Observations().load(Observations().dump(o)) == Some(o) { ReadsBack(o, CANONICAL); }
  }

  lemma SpellingsDiffer(o: Observation)
    ensures Written(o, CANONICAL) != Written(o, OFFSET)
  {
    var a, b := Instant(o.recordedAt) + CANONICAL, Instant(o.recordedAt) + OFFSET;
    assert |a| != |b|;
    hide Instant;
    assert Written(o, CANONICAL).fields["recorded_at"] != Written(o, OFFSET).fields["recorded_at"];
  }

  // A stored Observation whose timestamp is written the other way is accepted for the
  // same record, although it is not its encoding; a decoder that compares refuses it.
  lemma SecondSpellingIsAccepted(n: Naming, o: Observation, external: seq<RecordReference>)
    requires ValidObservation(o) && Build(ObservationEntry(n, Observations()), NoChildren, o, external, []).Good?
    ensures var s := ObservationEntry(n, Observations());
            var e := Build(s, NoChildren, o, external, []).value;
            var other := e.(data := Written(o, OFFSET));
            && other != e && Decode(s, NoChildren, other, false) == Good(Decoded(o, []))
            && Decode(s, NoChildren, other, true).Bad?
  {
    hide Written, Read, Build, Decode;
    var s := ObservationEntry(n, Observations());
    ObservationsAreFaithful();
    ObservationEntryIsLawful(n, Observations());
    ReadsBack(o, OFFSET);
    SpellingsDiffer(o);
    OtherSpellingIsAccepted(s, NoChildren, o, external, [], Written(o, OFFSET));
    BuiltData(s, NoChildren, o, external, []);
  }
}
