/**
 * `BCIOGraph`: turns encounter, BCT and participant records into triples. Each builder is
 * specified by the exact set of triples it adds; the lemmas below state the shape of those
 * sets (types, links, derived quality nodes, optional comments).
 */
module OntologyCore {
  import opened Wrappers
  import opened Strings
  import opened Rdf
  import opened Records
  import opened BcioUris

  // ---------------------------------------------------------------------------------------
  // The triples each builder writes
  // ---------------------------------------------------------------------------------------

  function ModeQualityTriples(enc: string, mode: string): set<Triple> {
    var q := enc + "/mode_quality";
    {Triple(q, RdfType, Iri(BCIO_MODE_OF_DELIVERY)), Triple(q, InheresIn, Iri(enc)),
     Triple(q, HasQualityValue, StrLit(mode))}
  }

  /** The duration node's type and inherence, written before the minutes are parsed. */
  function DurationHeadTriples(enc: string): set<Triple> {
    var q := enc + "/duration_quality";
    {Triple(q, RdfType, Iri(PATO_DURATION)), Triple(q, InheresIn, Iri(enc))}
  }

  function DurationValueTriples(enc: string, minutes: int): set<Triple> {
    var q := enc + "/duration_quality";
    {Triple(q, MeasurementValue, IntLit(minutes)), Triple(q, MeasurementUnit, Iri(BCIO_MINUTES))}
  }

  function FidelityTriples(bct: string, f: Fidelity): set<Triple> {
    var q := bct + "/fidelity_quality";
    {Triple(q, RdfType, Iri(PATO_QUALITY)), Triple(q, RdfType, Iri(BCIO_FIDELITY_QUALITY)),
     Triple(q, InheresIn, Iri(bct)), Triple(q, HasQualityValue, StrLit(f.value)),
     Triple(q, RdfType, Iri(ParseBcioUri(f.qualityType)))}
  }

  /** An English `rdfs:comment`, written only for non-empty (truthy) notes. */
  function CommentTriples(subject: string, notes: string): set<Triple> {
    if notes == "" then {} else {Triple(subject, RdfsComment, LangLit(notes, "en"))}
  }

  /** The triples about a BCT node itself: its class, labels, comment, flag and encounter. */
  function BctNodeTriples(b: BctRecord, enc: string): set<Triple> {
    var u := b.instanceUri;
    {Triple(u, RdfType, Iri(ParseBcioUri(b.bctClass))),
     Triple(u, RdfsLabel, LangLit(b.practitionerLabel, "en")),
     Triple(u, AlternativeTerm, LangLit(b.formalLabel, "en"))}
    + CommentTriples(u, b.notes)
    + {Triple(u, AutoTagged, BoolLit(b.autoTagged.GetOr(false))), Triple(u, PartOf, Iri(enc))}
  }

  /** Everything `add_bct_instance` writes: the BCT node's triples and its fidelity node's. */
  function BctTriples(b: BctRecord, enc: string): set<Triple> {
    BctNodeTriples(b, enc) + FidelityTriples(b.instanceUri, b.fidelity)
  }

  /** The BCT records of an encounter: each record's triples and the encounter's has-part edge to it. */
  function BctsTriples(bcts: seq<BctRecord>, enc: string): set<Triple> {
    (set b, t | b in bcts && t in BctTriples(b, enc) :: t)
      + (set b | b in bcts :: Triple(enc, HasPart, Iri(b.instanceUri)))
  }

  /** Writing one more record adds its triples and its has-part edge. */
  lemma BctsTriplesSnoc(bcts: seq<BctRecord>, i: nat, enc: string)
    requires i < |bcts|
    ensures BctsTriples(bcts[..i + 1], enc)
      == BctsTriples(bcts[..i], enc) + BctTriples(bcts[i], enc) + {Triple(enc, HasPart, Iri(bcts[i].instanceUri))}
  {
    BctNodesSnoc(bcts, i, enc);
    BctLinksSnoc(bcts, i, enc);
    UnionInterleave(set b, t | b in bcts[..i] && t in BctTriples(b, enc) :: t, BctTriples(bcts[i], enc),
                    set b | b in bcts[..i] :: Triple(enc, HasPart, Iri(b.instanceUri)),
                    {Triple(enc, HasPart, Iri(bcts[i].instanceUri))});
  }

  lemma UnionInterleave<T>(a: set<T>, b: set<T>, c: set<T>, d: set<T>)
    ensures (a + b) + (c + d) == a + c + b + d
  {
  }

  lemma BctNodesSnoc(bcts: seq<BctRecord>, i: nat, enc: string)
    requires i < |bcts|
    ensures (set b, t | b in bcts[..i + 1] && t in BctTriples(b, enc) :: t)
      == (set b, t | b in bcts[..i] && t in BctTriples(b, enc) :: t) + BctTriples(bcts[i], enc)
  {
    assert forall c :: c in bcts[..i + 1] <==> c in bcts[..i] || c == bcts[i];
  }

  lemma BctLinksSnoc(bcts: seq<BctRecord>, i: nat, enc: string)
    requires i < |bcts|
    ensures (set b | b in bcts[..i + 1] :: Triple(enc, HasPart, Iri(b.instanceUri)))
      == (set b | b in bcts[..i] :: Triple(enc, HasPart, Iri(b.instanceUri))) + {Triple(enc, HasPart, Iri(bcts[i].instanceUri))}
  {
    assert forall c :: c in bcts[..i + 1] <==> c in bcts[..i] || c == bcts[i];
  }

  function ProtocolUri(protocolId: string): string {
    "http://interventions.org/protocol/" + protocolId
  }

  function PractitionerUri(practitionerId: string): string {
    "http://interventions.org/practitioner/" + practitionerId
  }

  function EncounterHeadTriples(e: EncounterData): set<Triple> {
    var enc := e.encounterUri;
    {Triple(enc, RdfType, Iri(BCIO_ENCOUNTER)), Triple(enc, RdfType, Iri(BFO_PROCESS)),
     Triple(enc, HasTemporalValue, DateTimeLit(e.timestamp)),
     Triple(enc, HasSpecifiedInput, Iri(e.deliveredToUri))}
  }

  /** What `add_encounter_instance` has written when parsing the minutes fails. */
  function EncounterPrefixTriples(e: EncounterData): set<Triple> {
    EncounterHeadTriples(e) + ModeQualityTriples(e.encounterUri, e.modeOfDelivery)
      + DurationHeadTriples(e.encounterUri)
  }

  /** The encounter's links to its protocol and its practitioner. */
  function EncounterLinkTriples(e: EncounterData): set<Triple> {
    {Triple(e.encounterUri, Realizes, Iri(ProtocolUri(e.protocolId))),
     Triple(e.encounterUri, HasSpecifiedAgent, Iri(PractitionerUri(e.practitionerId)))}
  }

  /** Everything `add_encounter_instance` writes when the minutes parse to `minutes`. */
  function EncounterTriples(e: EncounterData, minutes: int): set<Triple> {
    var enc := e.encounterUri;
    EncounterPrefixTriples(e) + DurationValueTriples(enc, minutes)
      + EncounterLinkTriples(e)
      + BctsTriples(e.bcts, enc)
      + CommentTriples(enc, e.encounterNotes)
  }

  function AgeTriples(participant: string, age: int): set<Triple> {
    var q := participant + "/age_attribute";
    {Triple(q, RdfType, Iri(PATO_AGE)), Triple(q, InheresIn, Iri(participant)),
     Triple(q, MeasurementValue, IntLit(age)), Triple(q, MeasurementUnit, Iri(BCIO_YEARS))}
  }

  function AttributeUri(participant: string, tagName: string): string {
    participant + "/attribute/" + tagName
  }

  /** The attribute label: the tag name with every underscore shown as a space. */
  function AttributeLabel(tagName: string): (shown: string)
    ensures |shown| == |tagName|
    ensures forall i :: 0 <= i < |tagName| ==>
      shown[i] == (if tagName[i] == '_' then ' ' else tagName[i])
  {
    ReplaceCharPointwise(tagName, '_', ' ');
    ReplaceAll(tagName, "_", " ")
  }

  function AttributeTriples(participant: string, tag: TagData): set<Triple> {
    var a := AttributeUri(participant, tag.tagName);
    {Triple(a, RdfType, Iri(ParseBcioUriFromId(tag.bcioId))), Triple(a, RdfType, Iri(BFO_QUALITY)),
     Triple(a, InheresIn, Iri(participant)),
     Triple(a, RdfsLabel, LangLit(AttributeLabel(tag.tagName), "en")),
     Triple(a, AttributeCategory, StrLit(tag.tagCategory))}
  }

  function TagsTriples(participant: string, tags: seq<TagData>): set<Triple> {
    set tag, t | tag in tags && t in AttributeTriples(participant, tag) :: t
  }

  /** Writing one more tag adds its attribute triples. */
  lemma TagsTriplesSnoc(participant: string, tags: seq<TagData>, i: nat)
    requires i < |tags|
    ensures TagsTriples(participant, tags[..i + 1])
      == TagsTriples(participant, tags[..i]) + AttributeTriples(participant, tags[i])
  {
    assert forall c :: c in tags[..i + 1] <==> c in tags[..i] || c == tags[i];
  }

  /** The participant node's types and identifier. */
  function ParticipantHeadTriples(d: ParticipantData): set<Triple> {
    var u := d.participantUri;
    {Triple(u, RdfType, Iri(BFO_MATERIAL_ENTITY)), Triple(u, RdfType, Iri(BCIO_INTERVENTION_RECIPIENT)),
     Triple(u, ParticipantIdentifier, StrLit(d.participantId))}
  }

  function ParticipantTriples(d: ParticipantData): set<Triple> {
    var u := d.participantUri;
    ParticipantHeadTriples(d)
    + AgeTriples(u, d.age)
    + TagsTriples(u, d.tags)
    + {Triple(u, CreatedDate, DateTimeLit(d.createdDate))}
  }

  /** Regrouping the stages of a builder's writes. */
  lemma UnionChain(g0: set<Triple>, p: set<Triple>, dv: set<Triple>, l: set<Triple>, b: set<Triple>,
                   c: set<Triple>, g1: set<Triple>, linked: set<Triple>, g2: set<Triple>, fin: set<Triple>)
    requires g1 == g0 + p + dv && linked == g1 + l && g2 == linked + b && fin == g2 + c
    ensures fin == g0 + (p + dv + l + b + c)
  {
  }

  // ---------------------------------------------------------------------------------------
  // The builder
  // ---------------------------------------------------------------------------------------

  /** `BCIOGraph`: a builder that owns one triple store. */
  class BcioGraph {
    const graph: Store

    constructor ()
      ensures fresh(graph) && graph.triples == {}
    {
      graph := new Store();
    }

    /** `_create_mode_of_delivery_quality`. */
    method CreateModeOfDeliveryQuality(enc: string, mode: string) returns (uri: string)
      modifies graph
      ensures uri == enc + "/mode_quality"
      ensures graph.triples == old(graph.triples) + ModeQualityTriples(enc, mode)
    {
      uri := enc + "/mode_quality";
      graph.Add(Triple(uri, RdfType, Iri(BCIO_MODE_OF_DELIVERY)));
      graph.Add(Triple(uri, InheresIn, Iri(enc)));
      graph.Add(Triple(uri, HasQualityValue, StrLit(mode)));
    }

    /**
     * `_create_duration_quality`: `int(duration_minutes)` raises on text that is not an
     * integer, after the node's type and inherence are already in the graph.
     */
    method CreateDurationQuality(enc: string, minutesText: string) returns (r: Option<string>)
      modifies graph
      ensures r.Some? <==> ParseInt(minutesText).Some?
      ensures r.Some? ==> (r.value == enc + "/duration_quality" &&
        graph.triples == old(graph.triples) + DurationHeadTriples(enc)
          + DurationValueTriples(enc, ParseInt(minutesText).value))
      ensures r.None? ==> graph.triples == old(graph.triples) + DurationHeadTriples(enc)
    {
      var uri := enc + "/duration_quality";
      graph.Add(Triple(uri, RdfType, Iri(PATO_DURATION)));
      graph.Add(Triple(uri, InheresIn, Iri(enc)));
      var minutes := ParseInt(minutesText);
      if minutes.None? {
        return None;
      }
      graph.Add(Triple(uri, MeasurementValue, IntLit(minutes.value)));
      graph.Add(Triple(uri, MeasurementUnit, Iri(BCIO_MINUTES)));
      r := Some(uri);
    }

    /** `_create_fidelity_quality`. */
    method CreateFidelityQuality(bct: string, f: Fidelity) returns (uri: string)
      modifies graph
      ensures uri == bct + "/fidelity_quality"
      ensures graph.triples == old(graph.triples) + FidelityTriples(bct, f)
    {
      uri := bct + "/fidelity_quality";
      graph.Add(Triple(uri, RdfType, Iri(PATO_QUALITY)));
      graph.Add(Triple(uri, RdfType, Iri(BCIO_FIDELITY_QUALITY)));
      graph.Add(Triple(uri, InheresIn, Iri(bct)));
      graph.Add(Triple(uri, HasQualityValue, StrLit(f.value)));
      graph.Add(Triple(uri, RdfType, Iri(ParseBcioUri(f.qualityType))));
    }

    /** `add_bct_instance`. */
    method AddBctInstance(b: BctRecord, enc: string) returns (uri: string)
      modifies graph
      ensures uri == b.instanceUri
      ensures graph.triples == old(graph.triples) + BctTriples(b, enc)
    {
      uri := b.instanceUri;
      graph.Add(Triple(uri, RdfType, Iri(ParseBcioUri(b.bctClass))));
      var _ := CreateFidelityQuality(uri, b.fidelity);
      graph.Add(Triple(uri, RdfsLabel, LangLit(b.practitionerLabel, "en")));
      graph.Add(Triple(uri, AlternativeTerm, LangLit(b.formalLabel, "en")));
      if b.notes != "" {
        graph.Add(Triple(uri, RdfsComment, LangLit(b.notes, "en")));
      }
      graph.Add(Triple(uri, AutoTagged, BoolLit(b.autoTagged.GetOr(false))));
      graph.Add(Triple(uri, PartOf, Iri(enc)));
    }

    /**
     * `add_encounter_instance`: `None` stands for the `ValueError` raised when the minutes
     * are not an integer, which leaves the triples written so far in the graph.
     */
    method AddEncounterInstance(e: EncounterData) returns (r: Option<string>)
      modifies graph
      ensures r.Some? <==> ParseInt(e.durationMinutes).Some?
      ensures r.Some? ==> (r.value == e.encounterUri &&
        graph.triples == old(graph.triples) + EncounterTriples(e, ParseInt(e.durationMinutes).value))
      ensures r.None? ==> graph.triples == old(graph.triples) + EncounterPrefixTriples(e)
    {
      var enc := e.encounterUri;
      ghost var g0 := graph.triples;
      AddEncounterHead(e);
      var _ := CreateModeOfDeliveryQuality(enc, e.modeOfDelivery);
      var duration := CreateDurationQuality(enc, e.durationMinutes);
      assert duration.None? ==> graph.triples == g0 + EncounterPrefixTriples(e);
      if duration.None? {
        return None;
      }
      ghost var g1 := graph.triples;
      ghost var minutes := ParseInt(e.durationMinutes).value;
      assert g1 == g0 + EncounterPrefixTriples(e) + DurationValueTriples(enc, minutes);
      AddEncounterLinks(e);
      ghost var linked := graph.triples;
      AddBctInstances(e.bcts, enc);
      ghost var g2 := graph.triples;
      AddEncounterComment(enc, e.encounterNotes);
      UnionChain(g0, EncounterPrefixTriples(e), DurationValueTriples(enc, minutes),
        EncounterLinkTriples(e), BctsTriples(e.bcts, enc), CommentTriples(enc, e.encounterNotes), g1, linked, g2, graph.triples);
      r := Some(enc);
    }

    /** The encounter node's types, timestamp and participant, the first writes of `add_encounter_instance`. */
    method AddEncounterHead(e: EncounterData)
      modifies graph
      ensures graph.triples == old(graph.triples) + EncounterHeadTriples(e)
    {
      var enc := e.encounterUri;
      graph.Add(Triple(enc, RdfType, Iri(BCIO_ENCOUNTER)));
      graph.Add(Triple(enc, RdfType, Iri(BFO_PROCESS)));
      graph.Add(Triple(enc, HasTemporalValue, DateTimeLit(e.timestamp)));
      graph.Add(Triple(enc, HasSpecifiedInput, Iri(e.deliveredToUri)));
    }

    /** The protocol and practitioner links, written once the duration is recorded. */
    method AddEncounterLinks(e: EncounterData)
      modifies graph
      ensures graph.triples == old(graph.triples) + EncounterLinkTriples(e)
    {
      graph.Add(Triple(e.encounterUri, Realizes, Iri(ProtocolUri(e.protocolId))));
      graph.Add(Triple(e.encounterUri, HasSpecifiedAgent, Iri(PractitionerUri(e.practitionerId))));
    }

    /** The encounter's notes, as an English comment, only when they are non-empty. */
    method AddEncounterComment(enc: string, notes: string)
      modifies graph
      ensures graph.triples == old(graph.triples) + CommentTriples(enc, notes)
    {
      if notes != "" {
        graph.Add(Triple(enc, RdfsComment, LangLit(notes, "en")));
      }
    }

    /** The loop of `add_encounter_instance` over the encounter's BCT records. */
    method AddBctInstances(bcts: seq<BctRecord>, enc: string)
      modifies graph
      ensures graph.triples == old(graph.triples) + BctsTriples(bcts, enc)
    {
      var i := 0;
      while i < |bcts|
        invariant 0 <= i <= |bcts|
        invariant graph.triples == old(graph.triples) + BctsTriples(bcts[..i], enc)
      {
        var bctUri := AddBctInstance(bcts[i], enc);
        graph.Add(Triple(enc, HasPart, Iri(bctUri)));
        BctsTriplesSnoc(bcts, i, enc);
        i := i + 1;
      }
      assert bcts[..|bcts|] == bcts;
    }

    /** `_create_age_attribute`. */
    method CreateAgeAttribute(participant: string, age: int) returns (uri: string)
      modifies graph
      ensures uri == participant + "/age_attribute"
      ensures graph.triples == old(graph.triples) + AgeTriples(participant, age)
    {
      uri := participant + "/age_attribute";
      graph.Add(Triple(uri, RdfType, Iri(PATO_AGE)));
      graph.Add(Triple(uri, InheresIn, Iri(participant)));
      graph.Add(Triple(uri, MeasurementValue, IntLit(age)));
      graph.Add(Triple(uri, MeasurementUnit, Iri(BCIO_YEARS)));
    }

    /** `_create_population_attribute`. */
    method CreatePopulationAttribute(participant: string, tag: TagData) returns (uri: string)
      modifies graph
      ensures uri == AttributeUri(participant, tag.tagName)
      ensures graph.triples == old(graph.triples) + AttributeTriples(participant, tag)
    {
      uri := AttributeUri(participant, tag.tagName);
      graph.Add(Triple(uri, RdfType, Iri(ParseBcioUriFromId(tag.bcioId))));
      graph.Add(Triple(uri, RdfType, Iri(BFO_QUALITY)));
      graph.Add(Triple(uri, InheresIn, Iri(participant)));
      graph.Add(Triple(uri, RdfsLabel, LangLit(AttributeLabel(tag.tagName), "en")));
      graph.Add(Triple(uri, AttributeCategory, StrLit(tag.tagCategory)));
    }

    /** The loop of `add_participant_instance` over the participant's tags. */
    method AddPopulationAttributes(participant: string, tags: seq<TagData>)
      modifies graph
      ensures graph.triples == old(graph.triples) + TagsTriples(participant, tags)
    {
      var i := 0;
      while i < |tags|
        invariant 0 <= i <= |tags|
        invariant graph.triples == old(graph.triples) + TagsTriples(participant, tags[..i])
      {
        var _ := CreatePopulationAttribute(participant, tags[i]);
        TagsTriplesSnoc(participant, tags, i);
        i := i + 1;
      }
      assert tags[..|tags|] == tags;
    }

    /** `add_participant_instance`. */
    method AddParticipantInstance(d: ParticipantData) returns (uri: string)
      modifies graph
      ensures uri == d.participantUri
      ensures graph.triples == old(graph.triples) + ParticipantTriples(d)
    {
      uri := d.participantUri;
      ghost var g0 := graph.triples;
      graph.Add(Triple(uri, RdfType, Iri(BFO_MATERIAL_ENTITY)));
      graph.Add(Triple(uri, RdfType, Iri(BCIO_INTERVENTION_RECIPIENT)));
      graph.Add(Triple(uri, ParticipantIdentifier, StrLit(d.participantId)));
      ghost var head := ParticipantHeadTriples(d);
      assert graph.triples == g0 + head;
      var _ := CreateAgeAttribute(uri, d.age);
      ghost var aged := graph.triples;
      assert aged == g0 + head + AgeTriples(uri, d.age);
      AddPopulationAttributes(uri, d.tags);
      graph.Add(Triple(uri, CreatedDate, DateTimeLit(d.createdDate)));
    }
  }
}
