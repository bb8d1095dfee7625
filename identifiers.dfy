/**
 * Participant identifiers and the per-participant encounter list: the sequential ids
 * `P001`, `P002`, ... that `app.py` and `app_enhanced.py` derive from the number of participants
 * in the graph, the participant URI, and the `participant_encounters` filter of `encounter_app.py`.
 */
module Identifiers {
  import opened Wrappers
  import opened Strings
  import opened Rdf
  import opened Records
  import opened Barriers
  import opened OntologyCore
  import opened OntologyFacts
  import opened Tagging
  import opened InlineTagging

  /** `f"P{str(count + 1).zfill(3)}"`. */
  function ParticipantId(count: nat): string {
    "P" + ZFill(NatToDecimal(count + 1), 3)
  }

  /**
   * An id is "P" and at least three digits whose value is `count + 1`: the number is padded,
   * never truncated, so P999 is followed by P1000.
   */
  lemma ParticipantIdFormat(count: nat)
    ensures var id := ParticipantId(count);
            && |id| >= 4 && id[0] == 'P'
            && IsDigits(id[1..]) && DigitsValue(id[1..]) == count + 1
  {
    var digits := NatToDecimal(count + 1);
    ZFillDigits(digits, 3);
    NatToDecimalValue(count + 1);
    assert ParticipantId(count)[1..] == ZFill(digits, 3);
  }

  /** Different counts give different ids. */
  lemma ParticipantIdInjective(m: nat, n: nat)
    requires ParticipantId(m) == ParticipantId(n)
    ensures m == n
  {
    ParticipantIdFormat(m);
    ParticipantIdFormat(n);
  }

  /** `SELECT (COUNT(?p) as ?count) WHERE { ?p a bfo:0000040 }`: one solution per typed subject. */
  function ParticipantCount(g: set<Triple>): nat {
    |Subjects(g, RdfType, Iri(BFO_MATERIAL_ENTITY))|
  }

  /** The id a new participant receives in a graph. */
  function NextParticipantId(g: set<Triple>): string {
    ParticipantId(ParticipantCount(g))
  }

  /** Adding a participant typing for a new subject raises the count. */
  lemma NewParticipantCounted(g: set<Triple>, h: set<Triple>, u: string)
    requires Triple(u, RdfType, Iri(BFO_MATERIAL_ENTITY)) in h
    requires Triple(u, RdfType, Iri(BFO_MATERIAL_ENTITY)) !in g
    ensures ParticipantCount(g + h) > ParticipantCount(g)
  {
    var before := Subjects(g, RdfType, Iri(BFO_MATERIAL_ENTITY));
    var after := Subjects(g + h, RdfType, Iri(BFO_MATERIAL_ENTITY));
    assert u in after && u !in before;
    var more := before + {u};
    assert |more| == |before| + 1;
    assert after == more + (after - more);
    assert |after| == |more| + |after - more|;
  }

  /**
   * Recording a participant whose URI was not yet typed as a participant raises the count, so
   * the next participant created receives a different id.
   */
  lemma CreatingParticipantAdvancesId(g: set<Triple>, d: ParticipantData)
    requires Triple(d.participantUri, RdfType, Iri(BFO_MATERIAL_ENTITY)) !in g
    ensures ParticipantCount(g + ParticipantTriples(d)) > ParticipantCount(g)
    ensures NextParticipantId(g + ParticipantTriples(d)) != NextParticipantId(g)
  {
    var h := ParticipantTriples(d);
    ParticipantTypes(d);
    assert Iri(BFO_MATERIAL_ENTITY) in Objects(h, d.participantUri, RdfType);
    NewParticipantCounted(g, h, d.participantUri);
    if NextParticipantId(g + h) == NextParticipantId(g) {
      ParticipantIdInjective(ParticipantCount(g + h), ParticipantCount(g));
    }
  }

  /** `generate_participant_uri` is the participant URI every module builds; it keeps the id. */
  lemma ParticipantUriKeepsId(participantId: string)
    ensures ParticipantUri(participantId)[|INTERVENTION_NS + "participant/"|..] == participantId
    ensures '/' !in participantId ==> LastSegment(ParticipantUri(participantId), '/') == participantId
  {
    if '/' !in participantId {
      assert ParticipantUri(participantId) == (INTERVENTION_NS + "participant") + ['/'] + participantId;
      LastSegmentAfter(INTERVENTION_NS + "participant", '/', participantId);
    }
  }

  /** Different ids give different participant URIs. */
  lemma ParticipantUriInjective(a: string, b: string)
    requires ParticipantUri(a) == ParticipantUri(b)
    ensures a == b
  {
    ParticipantUriKeepsId(a);
    ParticipantUriKeepsId(b);
  }

  // ---------------------------------------------------------------------------------------
  // participant_encounters in encounter_app.py
  // ---------------------------------------------------------------------------------------

  /** An encounter as stored in the encounters file; `delivered_to_uri` may be missing. */
  datatype StoredEncounter = StoredEncounter(encounterId: string, deliveredToUri: Option<string>, numBcts: nat)

  predicate DeliveredTo(e: StoredEncounter, participantId: string) {
    e.deliveredToUri == Some(ParticipantUri(participantId))
  }

  /** `[e for e in all_encounters if e.get('delivered_to_uri') == participant_uri]`. */
  function ParticipantEncounters(encounters: seq<StoredEncounter>, participantId: string): (r: seq<StoredEncounter>)
    ensures forall e :: e in r ==> DeliveredTo(e, participantId)
    ensures forall e :: DeliveredTo(e, participantId) ==> multiset(r)[e] == multiset(encounters)[e]
    decreases |encounters|
  {
    if encounters == [] then []
    else
      var n := |encounters| - 1;
      assert encounters == encounters[..n] + [encounters[n]];
      var prev := ParticipantEncounters(encounters[..n], participantId);
      if DeliveredTo(encounters[n], participantId) then prev + [encounters[n]] else prev
  }

  /** The participant's encounters keep their stored order. */
  lemma {:induction false} ParticipantEncountersInOrder(encounters: seq<StoredEncounter>, participantId: string)
    ensures Subsequence(ParticipantEncounters(encounters, participantId), encounters)
    decreases |encounters|
  {
    var r := ParticipantEncounters(encounters, participantId);
    if encounters != [] && r != [] {
      var n := |encounters| - 1;
      var prev := ParticipantEncounters(encounters[..n], participantId);
      ParticipantEncountersInOrder(encounters[..n], participantId);
      if DeliveredTo(encounters[n], participantId) {
        assert r[..|r| - 1] == prev;
      } else {
        assert r == prev;
        assert DeliveredTo(r[|r| - 1], participantId);
      }
    }
  }

  /** Encounters saved later are listed after the earlier ones. */
  lemma {:induction false} ParticipantEncountersAppend(a: seq<StoredEncounter>, b: seq<StoredEncounter>, participantId: string)
    ensures ParticipantEncounters(a + b, participantId)
            == ParticipantEncounters(a, participantId) + ParticipantEncounters(b, participantId)
    decreases |b|
  {
    if b == [] {
      assert a + b == a;
    } else {
      var n := |b| - 1;
      assert (a + b)[..|a + b| - 1] == a + b[..n];
      ParticipantEncountersAppend(a, b[..n], participantId);
    }
  }

  // ---------------------------------------------------------------------------------------
  // Encounter and BCT instance URIs made by the submit handlers
  // ---------------------------------------------------------------------------------------

  /** `f"http://interventions.org/encounter/{encounter_id}"`. */
  function EncounterUri(encounterId: string): (uri: string)
    ensures StartsWith(uri, INTERVENTION_ENCOUNTERS) && uri[|INTERVENTION_ENCOUNTERS|..] == encounterId
  {
    INTERVENTION_ENCOUNTERS + encounterId
  }

  /**
   * The BCT instances numbered under an encounter (`generate_bct_uri`) extend its URI by
   * `/bct/` and a slot, so neither they nor their fidelity nodes are the encounter node.
   */
  lemma NumberedBctsApart(encounterId: string, e: EncounterData)
    requires e.encounterUri == EncounterUri(encounterId)
    requires forall b :: b in e.bcts ==> exists slot: nat :: b.instanceUri == BctUri(encounterId, slot)
    ensures BctsApart(e)
  {
    forall b | b in e.bcts
      ensures b.instanceUri != e.encounterUri && b.instanceUri + "/fidelity_quality" != e.encounterUri
    {
      var slot: nat :| b.instanceUri == BctUri(encounterId, slot);
      assert |b.instanceUri| > |e.encounterUri|;
    }
  }

  /**
   * The BCT instances `app.py` names in the `bct` namespace part from the encounter's URI at
   * the first letter after `http://interventions.org/`, fidelity nodes included.
   */
  lemma InlineBctsApart(encounterId: string, e: EncounterData)
    requires e.encounterUri == EncounterUri(encounterId)
    requires forall b :: b in e.bcts ==> exists bctId :: b.instanceUri == InlineBctUri(encounterId, bctId)
    ensures BctsApart(e)
  {
    assert e.encounterUri[25] == 'e';
    forall b | b in e.bcts
      ensures b.instanceUri != e.encounterUri && b.instanceUri + "/fidelity_quality" != e.encounterUri
    {
      var bctId :| b.instanceUri == InlineBctUri(encounterId, bctId);
      assert b.instanceUri[25] == 'b';
      assert (b.instanceUri + "/fidelity_quality")[25] == 'b';
    }
  }
}
