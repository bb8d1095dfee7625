/**
 * What the triples written by `BCIOGraph` say: an encounter's types and links, the has-part /
 * part-of pairs with its BCTs, comments only for non-empty notes, quality nodes inhering in
 * their parents, the parsed duration, and the participant's attribute nodes.
 *
 * Facts about a part of the writes are stated for triple patterns `Triple(x, p, o)` and
 * proved part by part; the facts about a whole encounter are assembled from them.
 */
module OntologyFacts {
  import opened Wrappers
  import opened Strings
  import opened Rdf
  import opened Records
  import opened BcioUris
  import opened OntologyCore

  // ---------------------------------------------------------------------------------------
  // The parts of one BCT record
  // ---------------------------------------------------------------------------------------

  /** The comment written for non-empty notes, and nothing else. */
  lemma CommentShape(subject: string, notes: string)
    ensures forall t :: t in CommentTriples(subject, notes) ==>
      notes != "" && t == Triple(subject, RdfsComment, LangLit(notes, "en"))
    ensures notes != "" ==> Triple(subject, RdfsComment, LangLit(notes, "en")) in CommentTriples(subject, notes)
  {
  }

  /** The fidelity node is a different node from its BCT, and holds no measurement, part or comment. */
  lemma FidelityFacts(bct: string, f: Fidelity)
    ensures forall p, o :: Triple(bct, p, o) !in FidelityTriples(bct, f)
    ensures forall x, o :: Triple(x, MeasurementValue, o) !in FidelityTriples(bct, f)
    ensures forall x, o :: Triple(x, HasPart, o) !in FidelityTriples(bct, f)
    ensures forall x, o :: Triple(x, PartOf, o) !in FidelityTriples(bct, f)
  {
    assert |bct + "/fidelity_quality"| > |bct|;
  }

  /** The fidelity node inheres in its BCT, and that is its only inherence edge. */
  lemma FidelityInherence(bct: string, f: Fidelity)
    ensures Edges(FidelityTriples(bct, f), InheresIn) == {(bct + "/fidelity_quality", Iri(bct))}
  {
  }

  /** A BCT record's triples carry no measurement value and no has-part edge. */
  lemma BctUnmeasured(b: BctRecord, enc: string)
    ensures forall x, o :: Triple(x, MeasurementValue, o) !in BctTriples(b, enc)
    ensures forall x, o :: Triple(x, HasPart, o) !in BctTriples(b, enc)
  {
    FidelityFacts(b.instanceUri, b.fidelity);
    CommentShape(b.instanceUri, b.notes);
  }

  /** A BCT record's only part-of edge is from the BCT to the encounter. */
  lemma BctPartOf(b: BctRecord, enc: string)
    ensures forall x, o :: Triple(x, PartOf, o) in BctTriples(b, enc) <==> x == b.instanceUri && o == Iri(enc)
  {
    FidelityFacts(b.instanceUri, b.fidelity);
    CommentShape(b.instanceUri, b.notes);
  }

  /** A BCT record's triples are about the BCT itself or its fidelity node. */
  lemma BctSubjects(b: BctRecord, enc: string)
    ensures forall x, p, o :: Triple(x, p, o) in BctTriples(b, enc) ==>
      x == b.instanceUri || x == b.instanceUri + "/fidelity_quality"
  {
    CommentShape(b.instanceUri, b.notes);
  }

  /** A BCT record's only inherence edge is its fidelity node's, in the record. */
  lemma BctInherence(b: BctRecord, enc: string)
    ensures Edges(BctTriples(b, enc), InheresIn) == {(b.instanceUri + "/fidelity_quality", Iri(b.instanceUri))}
  {
    NodeNoInherence(b, enc);
    FidelityInherence(b.instanceUri, b.fidelity);
    EdgesUnion(BctNodeTriples(b, enc), FidelityTriples(b.instanceUri, b.fidelity), InheresIn);
  }

  /** The BCT node's own triples carry no inherence edge. */
  lemma NodeNoInherence(b: BctRecord, enc: string)
    ensures Edges(BctNodeTriples(b, enc), InheresIn) == {}
  {
    var s := BctNodeTriples(b, enc);
    forall t | t in s
      ensures t.p != InheresIn
    {
      if t in CommentTriples(b.instanceUri, b.notes) {
        assert t.p == RdfsComment;
      }
    }
    NoEdges(s, InheresIn);
  }

  /**
   * A BCT has a comment iff its notes are non-empty, and exactly one `auto_tagged` value:
   * the record's flag, or false when the record has none.
   */
  lemma BctCommentAndFlag(b: BctRecord, enc: string)
    ensures var s := BctTriples(b, enc); var u := b.instanceUri;
      (forall o :: Triple(u, RdfsComment, o) in s <==> b.notes != "" && o == LangLit(b.notes, "en")) &&
      (forall o :: Triple(u, AutoTagged, o) in s <==>
        o == BoolLit(match b.autoTagged case Some(flag) => flag case None => false))
  {
    FidelityFacts(b.instanceUri, b.fidelity);
    CommentShape(b.instanceUri, b.notes);
  }

  // ---------------------------------------------------------------------------------------
  // The BCT records of an encounter
  // ---------------------------------------------------------------------------------------

  /** No BCT record's triples carry a measurement value. */
  lemma BctsUnmeasured(bcts: seq<BctRecord>, enc: string)
    ensures forall x, o :: Triple(x, MeasurementValue, o) !in BctsTriples(bcts, enc)
  {
    forall b | b in bcts
      ensures forall x, o :: Triple(x, MeasurementValue, o) !in BctTriples(b, enc)
    {
      BctUnmeasured(b, enc);
    }
  }

  /** The has-part and part-of edges of a list of BCT records pair the encounter with each record. */
  lemma BctsParts(bcts: seq<BctRecord>, enc: string)
    ensures forall b :: b in bcts ==>
      Triple(enc, HasPart, Iri(b.instanceUri)) in BctsTriples(bcts, enc) &&
      Triple(b.instanceUri, PartOf, Iri(enc)) in BctsTriples(bcts, enc)
    ensures forall x, o :: Triple(x, HasPart, o) in BctsTriples(bcts, enc) ==>
      x == enc && exists b :: b in bcts && o == Iri(b.instanceUri)
  {
    forall b | b in bcts
      ensures Triple(b.instanceUri, PartOf, Iri(enc)) in BctTriples(b, enc)
      ensures forall x, o :: Triple(x, HasPart, o) !in BctTriples(b, enc)
    {
      BctUnmeasured(b, enc);
    }
  }

  /** Each BCT record's only inherence edge is its fidelity node's, in the record. */
  lemma BctsInherence(bcts: seq<BctRecord>, enc: string)
    ensures Edges(BctsTriples(bcts, enc), InheresIn)
      == set b | b in bcts :: (b.instanceUri + "/fidelity_quality", Iri(b.instanceUri))
  {
    forall b | b in bcts
      ensures Edges(BctTriples(b, enc), InheresIn) == {(b.instanceUri + "/fidelity_quality", Iri(b.instanceUri))}
    {
      BctInherence(b, enc);
    }
  }

  /** The encounter's has-part edges among the BCT writes go to exactly its BCT records. */
  lemma BctsPartObjects(bcts: seq<BctRecord>, enc: string)
    ensures Objects(BctsTriples(bcts, enc), enc, HasPart) == set b | b in bcts :: Iri(b.instanceUri)
  {
    BctsParts(bcts, enc);
  }

  /** No BCT record of the encounter, nor its fidelity node, has the encounter's own URI. */
  predicate BctsApart(e: EncounterData) {
    forall b :: b in e.bcts ==>
      b.instanceUri != e.encounterUri && b.instanceUri + "/fidelity_quality" != e.encounterUri
  }

  /** About the encounter node, the BCT writes hold only has-part edges. */
  lemma BctsAboutEncounter(bcts: seq<BctRecord>, enc: string)
    requires forall b :: b in bcts ==> b.instanceUri != enc && b.instanceUri + "/fidelity_quality" != enc
    ensures forall p, o :: Triple(enc, p, o) in BctsTriples(bcts, enc) ==> p == HasPart
  {
    forall b | b in bcts
      ensures forall p, o :: Triple(enc, p, o) !in BctTriples(b, enc)
    {
      BctSubjects(b, enc);
    }
  }

  /** Every BCT record's comment (for non-empty notes) and `auto_tagged` flag are among the writes. */
  lemma BctsRecorded(bcts: seq<BctRecord>, enc: string)
    ensures forall b :: b in bcts ==>
      (b.notes != "" ==> Triple(b.instanceUri, RdfsComment, LangLit(b.notes, "en")) in BctsTriples(bcts, enc)) &&
      Triple(b.instanceUri, AutoTagged, BoolLit(b.autoTagged.GetOr(false))) in BctsTriples(bcts, enc)
  {
    forall b | b in bcts
      ensures b.notes != "" ==> Triple(b.instanceUri, RdfsComment, LangLit(b.notes, "en")) in BctTriples(b, enc)
      ensures Triple(b.instanceUri, AutoTagged, BoolLit(b.autoTagged.GetOr(false))) in BctTriples(b, enc)
    {
      CommentShape(b.instanceUri, b.notes);
    }
  }

  // ---------------------------------------------------------------------------------------
  // The parts of a whole encounter
  // ---------------------------------------------------------------------------------------

  /** The objects of one subject and predicate in an encounter's writes, part by part. */
  lemma EncounterObjects(e: EncounterData, minutes: int, x: string, p: Predicate)
    ensures var enc := e.encounterUri;
      Objects(EncounterTriples(e, minutes), x, p) ==
        Objects(EncounterHeadTriples(e), x, p) + Objects(ModeQualityTriples(enc, e.modeOfDelivery), x, p)
        + Objects(DurationHeadTriples(enc), x, p) + Objects(DurationValueTriples(enc, minutes), x, p)
        + Objects(EncounterLinkTriples(e), x, p) + Objects(BctsTriples(e.bcts, enc), x, p)
        + Objects(CommentTriples(enc, e.encounterNotes), x, p)
  {
    var enc := e.encounterUri;
    var h, m, dh, dv := EncounterHeadTriples(e), ModeQualityTriples(enc, e.modeOfDelivery),
      DurationHeadTriples(enc), DurationValueTriples(enc, minutes);
    var l, b, c := EncounterLinkTriples(e), BctsTriples(e.bcts, enc), CommentTriples(enc, e.encounterNotes);
    ObjectsUnion(h, m, x, p);
    ObjectsUnion(h + m, dh, x, p);
    ObjectsUnion(h + m + dh, dv, x, p);
    ObjectsUnion(h + m + dh + dv, l, x, p);
    ObjectsUnion(h + m + dh + dv + l, b, x, p);
    ObjectsUnion(h + m + dh + dv + l + b, c, x, p);
  }

  /** A union of seven parts whose first six are empty is its last part. */
  lemma OnlyLastPart(a: set<Node>, b: set<Node>, c: set<Node>, d: set<Node>, f: set<Node>, g: set<Node>, h: set<Node>)
    requires a == {} && b == {} && c == {} && d == {} && f == {} && g == {}
    ensures a + b + c + d + f + g + h == h
  {
  }

  /** The edges of one predicate in an encounter's writes, part by part. */
  lemma EncounterEdges(e: EncounterData, minutes: int, p: Predicate)
    ensures var enc := e.encounterUri;
      Edges(EncounterTriples(e, minutes), p) ==
        Edges(EncounterHeadTriples(e), p) + Edges(ModeQualityTriples(enc, e.modeOfDelivery), p)
        + Edges(DurationHeadTriples(enc), p) + Edges(DurationValueTriples(enc, minutes), p)
        + Edges(EncounterLinkTriples(e), p) + Edges(BctsTriples(e.bcts, enc), p)
        + Edges(CommentTriples(enc, e.encounterNotes), p)
  {
    var enc := e.encounterUri;
    var h, m, dh, dv := EncounterHeadTriples(e), ModeQualityTriples(enc, e.modeOfDelivery),
      DurationHeadTriples(enc), DurationValueTriples(enc, minutes);
    var l, b, c := EncounterLinkTriples(e), BctsTriples(e.bcts, enc), CommentTriples(enc, e.encounterNotes);
    EdgesUnion(h, m, p);
    EdgesUnion(h + m, dh, p);
    EdgesUnion(h + m + dh, dv, p);
    EdgesUnion(h + m + dh + dv, l, p);
    EdgesUnion(h + m + dh + dv + l, b, p);
    EdgesUnion(h + m + dh + dv + l + b, c, p);
  }

  /** What the head of an encounter's writes says about the encounter node, predicate by predicate. */
  lemma HeadObjects(e: EncounterData)
    ensures var h := EncounterHeadTriples(e); var enc := e.encounterUri;
      Objects(h, enc, RdfType) == {Iri(BCIO_ENCOUNTER), Iri(BFO_PROCESS)} &&
      Objects(h, enc, HasTemporalValue) == {DateTimeLit(e.timestamp)} &&
      Objects(h, enc, HasSpecifiedInput) == {Iri(e.deliveredToUri)} &&
      forall p :: p != RdfType && p != HasTemporalValue && p != HasSpecifiedInput ==> Objects(h, enc, p) == {}
  {
  }

  /** The encounter's protocol and practitioner links, and nothing else. */
  lemma LinkObjects(e: EncounterData)
    ensures var l := EncounterLinkTriples(e); var enc := e.encounterUri;
      Objects(l, enc, Realizes) == {Iri(ProtocolUri(e.protocolId))} &&
      Objects(l, enc, HasSpecifiedAgent) == {Iri(PractitionerUri(e.practitionerId))} &&
      forall p :: p != Realizes && p != HasSpecifiedAgent ==> Objects(l, enc, p) == {}
  {
  }

  /** A comment part holds the notes for non-empty notes, and no other predicate. */
  lemma CommentObjects(subject: string, notes: string)
    ensures Objects(CommentTriples(subject, notes), subject, RdfsComment)
      == (if notes == "" then {} else {LangLit(notes, "en")})
    ensures forall x, p :: p != RdfsComment ==> Objects(CommentTriples(subject, notes), x, p) == {}
  {
  }

  /** The mode and duration nodes are other nodes than the encounter. */
  lemma QualityObjects(e: EncounterData, minutes: int)
    ensures var enc := e.encounterUri;
      forall p ::
        Objects(ModeQualityTriples(enc, e.modeOfDelivery), enc, p) == {} &&
        Objects(DurationHeadTriples(enc), enc, p) == {} &&
        Objects(DurationValueTriples(enc, minutes), enc, p) == {}
  {
    var enc := e.encounterUri;
    assert |enc + "/mode_quality"| > |enc|;
    assert |enc + "/duration_quality"| > |enc|;
  }

  /** Given apart URIs, the BCT writes say nothing about the encounter node but its parts. */
  lemma BctsOtherObjects(e: EncounterData, p: Predicate)
    requires BctsApart(e) && p != HasPart
    ensures Objects(BctsTriples(e.bcts, e.encounterUri), e.encounterUri, p) == {}
  {
    BctsAboutEncounter(e.bcts, e.encounterUri);
  }

  /** The encounter's head, mode, duration head and links hold no measurement value. */
  lemma NoOtherMeasurement(e: EncounterData, x: string)
    ensures var enc := e.encounterUri;
      Objects(EncounterHeadTriples(e), x, MeasurementValue) == {} &&
      Objects(ModeQualityTriples(enc, e.modeOfDelivery), x, MeasurementValue) == {} &&
      Objects(DurationHeadTriples(enc), x, MeasurementValue) == {} &&
      Objects(EncounterLinkTriples(e), x, MeasurementValue) == {}
  {
    var enc := e.encounterUri;
    NoObjects(EncounterHeadTriples(e), x, MeasurementValue);
    NoObjects(ModeQualityTriples(enc, e.modeOfDelivery), x, MeasurementValue);
    NoObjects(DurationHeadTriples(enc), x, MeasurementValue);
    NoObjects(EncounterLinkTriples(e), x, MeasurementValue);
  }

  /** The duration node's measurement value is the minutes. */
  lemma DurationValue(enc: string, minutes: int)
    ensures Objects(DurationValueTriples(enc, minutes), enc + "/duration_quality", MeasurementValue) == {IntLit(minutes)}
  {
  }

  // ---------------------------------------------------------------------------------------
  // A whole encounter
  // ---------------------------------------------------------------------------------------

  /** An encounter node gets exactly the types `BCIO_000001` and `BFO_0000015`. */
  lemma EncounterTypes(e: EncounterData, minutes: int)
    requires BctsApart(e)
    ensures Objects(EncounterTriples(e, minutes), e.encounterUri, RdfType) == {Iri(BCIO_ENCOUNTER), Iri(BFO_PROCESS)}
  {
    EncounterObjects(e, minutes, e.encounterUri, RdfType);
    HeadObjects(e);
    LinkObjects(e);
    CommentObjects(e.encounterUri, e.encounterNotes);
    QualityObjects(e, minutes);
    BctsOtherObjects(e, RdfType);
  }

  /** An encounter node has exactly one `has_specified_input` edge: to `delivered_to_uri`. */
  lemma EncounterInput(e: EncounterData, minutes: int)
    requires BctsApart(e)
    ensures Objects(EncounterTriples(e, minutes), e.encounterUri, HasSpecifiedInput) == {Iri(e.deliveredToUri)}
  {
    EncounterObjects(e, minutes, e.encounterUri, HasSpecifiedInput);
    HeadObjects(e);
    LinkObjects(e);
    CommentObjects(e.encounterUri, e.encounterNotes);
    QualityObjects(e, minutes);
    BctsOtherObjects(e, HasSpecifiedInput);
  }

  /** An encounter node realizes exactly one protocol, `protocol/{protocol_id}`. */
  lemma EncounterProtocol(e: EncounterData, minutes: int)
    requires BctsApart(e)
    ensures Objects(EncounterTriples(e, minutes), e.encounterUri, Realizes)
      == {Iri("http://interventions.org/protocol/" + e.protocolId)}
  {
    EncounterObjects(e, minutes, e.encounterUri, Realizes);
    HeadObjects(e);
    LinkObjects(e);
    CommentObjects(e.encounterUri, e.encounterNotes);
    QualityObjects(e, minutes);
    BctsOtherObjects(e, Realizes);
  }

  /** An encounter node has exactly one agent, `practitioner/{practitioner_id}`. */
  lemma EncounterAgent(e: EncounterData, minutes: int)
    requires BctsApart(e)
    ensures Objects(EncounterTriples(e, minutes), e.encounterUri, HasSpecifiedAgent)
      == {Iri("http://interventions.org/practitioner/" + e.practitionerId)}
  {
    EncounterObjects(e, minutes, e.encounterUri, HasSpecifiedAgent);
    HeadObjects(e);
    LinkObjects(e);
    CommentObjects(e.encounterUri, e.encounterNotes);
    QualityObjects(e, minutes);
    BctsOtherObjects(e, HasSpecifiedAgent);
  }

  /** About the encounter node, only the comment part of its writes holds comments. */
  lemma EncounterCommentPart(e: EncounterData, minutes: int)
    requires BctsApart(e)
    ensures Objects(EncounterTriples(e, minutes), e.encounterUri, RdfsComment)
      == Objects(CommentTriples(e.encounterUri, e.encounterNotes), e.encounterUri, RdfsComment)
  {
    var enc := e.encounterUri;
    EncounterObjects(e, minutes, enc, RdfsComment);
    HeadObjects(e);
    LinkObjects(e);
    QualityObjects(e, minutes);
    BctsOtherObjects(e, RdfsComment);
    OnlyLastPart(Objects(EncounterHeadTriples(e), enc, RdfsComment),
      Objects(ModeQualityTriples(enc, e.modeOfDelivery), enc, RdfsComment),
      Objects(DurationHeadTriples(enc), enc, RdfsComment),
      Objects(DurationValueTriples(enc, minutes), enc, RdfsComment),
      Objects(EncounterLinkTriples(e), enc, RdfsComment),
      Objects(BctsTriples(e.bcts, enc), enc, RdfsComment),
      Objects(CommentTriples(enc, e.encounterNotes), enc, RdfsComment));
  }


  /** The encounter has a comment iff its notes are non-empty, and then it is the notes in English. */
  lemma EncounterComment(e: EncounterData, minutes: int)
    requires BctsApart(e)
    ensures Objects(EncounterTriples(e, minutes), e.encounterUri, RdfsComment)
      == (if e.encounterNotes == "" then {} else {LangLit(e.encounterNotes, "en")})
  {
    EncounterCommentPart(e, minutes);
    CommentObjects(e.encounterUri, e.encounterNotes);
  }

  /** The encounter's parts are exactly its BCT records. */
  lemma EncounterParts(e: EncounterData, minutes: int)
    ensures Objects(EncounterTriples(e, minutes), e.encounterUri, HasPart)
      == set b | b in e.bcts :: Iri(b.instanceUri)
  {
    var enc := e.encounterUri;
    EncounterObjects(e, minutes, enc, HasPart);
    HeadObjects(e);
    LinkObjects(e);
    CommentObjects(enc, e.encounterNotes);
    QualityObjects(e, minutes);
    BctsPartObjects(e.bcts, enc);
  }

  /** Every BCT record of an encounter is part of that encounter. */
  lemma BctsPartOfEncounter(e: EncounterData, minutes: int)
    ensures forall b :: b in e.bcts ==>
      Iri(e.encounterUri) in Objects(EncounterTriples(e, minutes), b.instanceUri, PartOf)
  {
    BctsParts(e.bcts, e.encounterUri);
  }

  /** Within a whole encounter every BCT's notes and `auto_tagged` flag are recorded. */
  lemma EncounterBctsRecorded(e: EncounterData, minutes: int)
    ensures var s := EncounterTriples(e, minutes);
      forall b :: b in e.bcts ==>
        (b.notes != "" ==> Triple(b.instanceUri, RdfsComment, LangLit(b.notes, "en")) in s) &&
        Triple(b.instanceUri, AutoTagged, BoolLit(match b.autoTagged case Some(flag) => flag case None => false)) in s
  {
    BctsRecorded(e.bcts, e.encounterUri);
  }

  /** The mode node inheres in the encounter, and that is the mode part's only inherence edge. */
  lemma ModeInherence(enc: string, mode: string)
    ensures Edges(ModeQualityTriples(enc, mode), InheresIn) == {(enc + "/mode_quality", Iri(enc))}
  {
  }

  /** The duration node inheres in the encounter, and that is the duration head's only inherence edge. */
  lemma DurationInherence(enc: string)
    ensures Edges(DurationHeadTriples(enc), InheresIn) == {(enc + "/duration_quality", Iri(enc))}
  {
  }

  /** The encounter's head, links, duration value and comment hold no inherence edge. */
  lemma NoOtherInherence(e: EncounterData, minutes: int)
    ensures var enc := e.encounterUri;
      Edges(EncounterHeadTriples(e), InheresIn) == {} &&
      Edges(DurationValueTriples(enc, minutes), InheresIn) == {} &&
      Edges(EncounterLinkTriples(e), InheresIn) == {} &&
      Edges(CommentTriples(enc, e.encounterNotes), InheresIn) == {}
  {
    var enc := e.encounterUri;
    NoEdges(EncounterHeadTriples(e), InheresIn);
    NoEdges(DurationValueTriples(enc, minutes), InheresIn);
    NoEdges(EncounterLinkTriples(e), InheresIn);
    NoEdges(CommentTriples(enc, e.encounterNotes), InheresIn);
  }

  /**
   * The inherence edges of an encounter are exactly: the mode and duration nodes in the
   * encounter, and each BCT's fidelity node in that BCT.
   */
  lemma QualitiesInhereInParents(e: EncounterData, minutes: int)
    ensures var enc := e.encounterUri;
      Edges(EncounterTriples(e, minutes), InheresIn) ==
        {(enc + "/mode_quality", Iri(enc)), (enc + "/duration_quality", Iri(enc))}
        + set b | b in e.bcts :: (b.instanceUri + "/fidelity_quality", Iri(b.instanceUri))
  {
    EncounterEdges(e, minutes, InheresIn);
    ModeInherence(e.encounterUri, e.modeOfDelivery);
    DurationInherence(e.encounterUri);
    NoOtherInherence(e, minutes);
    BctsInherence(e.bcts, e.encounterUri);
  }

  /**
   * The duration node holds exactly one measurement value: the minutes the encounter was
   * written with (`AddEncounterInstance` writes the integer its minutes text parses to).
   */
  lemma DurationStored(e: EncounterData, minutes: int)
    ensures var q := e.encounterUri + "/duration_quality";
      Objects(EncounterTriples(e, minutes), q, MeasurementValue) == {IntLit(minutes)}
  {
    var q := e.encounterUri + "/duration_quality";
    EncounterObjects(e, minutes, q, MeasurementValue);
    NoOtherMeasurement(e, q);
    DurationValue(e.encounterUri, minutes);
    CommentObjects(e.encounterUri, e.encounterNotes);
    BctsUnmeasured(e.bcts, e.encounterUri);
  }

  // ---------------------------------------------------------------------------------------
  // A participant
  // ---------------------------------------------------------------------------------------

  /** Every tag's attribute triples are among the tags' writes. */
  lemma TagsContain(participant: string, tags: seq<TagData>)
    ensures forall tag :: tag in tags ==> AttributeTriples(participant, tag) <= TagsTriples(participant, tags)
  {
  }

  /** Every tag's attribute triples are among the participant's writes. */
  lemma TagsInParticipant(d: ParticipantData)
    ensures forall tag :: tag in d.tags ==> AttributeTriples(d.participantUri, tag) <= ParticipantTriples(d)
  {
    TagsContain(d.participantUri, d.tags);
  }

  /** What a graph holding a tag's attribute triples says about the attribute node. */
  lemma AttributeFacts(u: string, tag: TagData, s: set<Triple>)
    requires AttributeTriples(u, tag) <= s
    ensures var a := u + "/attribute/" + tag.tagName;
      Triple(a, InheresIn, Iri(u)) in s &&
      Triple(a, RdfType, Iri(ParseBcioUriFromId(tag.bcioId))) in s &&
      Triple(a, RdfsLabel, LangLit(AttributeLabel(tag.tagName), "en")) in s &&
      Triple(a, AttributeCategory, StrLit(tag.tagCategory)) in s
  {
  }

  /**
   * Each tag gives a node `participant/attribute/{tag_name}` that inheres in the participant,
   * is typed by the parsed class id, is labelled by the tag name with underscores shown as
   * spaces, and carries the tag category as a string.
   */
  lemma ParticipantAttributes(d: ParticipantData)
    ensures var s := ParticipantTriples(d); var u := d.participantUri;
      forall tag :: tag in d.tags ==>
        var a := u + "/attribute/" + tag.tagName;
        Triple(a, InheresIn, Iri(u)) in s &&
        Triple(a, RdfType, Iri(ParseBcioUriFromId(tag.bcioId))) in s &&
        Triple(a, RdfsLabel, LangLit(AttributeLabel(tag.tagName), "en")) in s &&
        Triple(a, AttributeCategory, StrLit(tag.tagCategory)) in s
  {
    TagsInParticipant(d);
    forall tag | tag in d.tags
      ensures var a := d.participantUri + "/attribute/" + tag.tagName; var s := ParticipantTriples(d);
        Triple(a, InheresIn, Iri(d.participantUri)) in s &&
        Triple(a, RdfType, Iri(ParseBcioUriFromId(tag.bcioId))) in s &&
        Triple(a, RdfsLabel, LangLit(AttributeLabel(tag.tagName), "en")) in s &&
        Triple(a, AttributeCategory, StrLit(tag.tagCategory)) in s
    {
      AttributeFacts(d.participantUri, tag, ParticipantTriples(d));
    }
  }

  /** No attribute triple is about the participant node itself. */
  lemma TagsApart(participant: string, tags: seq<TagData>)
    ensures forall p :: Objects(TagsTriples(participant, tags), participant, p) == {}
  {
    forall tag | tag in tags
      ensures forall p, o :: Triple(participant, p, o) !in AttributeTriples(participant, tag)
    {
      assert |AttributeUri(participant, tag.tagName)| > |participant|;
    }
  }

  /** The objects of one subject and predicate in a participant's writes, part by part. */
  lemma ParticipantObjects(d: ParticipantData, x: string, p: Predicate)
    ensures var u := d.participantUri;
      Objects(ParticipantTriples(d), x, p) ==
        Objects(ParticipantHeadTriples(d), x, p) + Objects(AgeTriples(u, d.age), x, p)
        + Objects(TagsTriples(u, d.tags), x, p) + Objects({Triple(u, CreatedDate, DateTimeLit(d.createdDate))}, x, p)
  {
    var u := d.participantUri;
    var h, a, t, c := ParticipantHeadTriples(d), AgeTriples(u, d.age), TagsTriples(u, d.tags),
      {Triple(u, CreatedDate, DateTimeLit(d.createdDate))};
    ObjectsUnion(h, a, x, p);
    ObjectsUnion(h + a, t, x, p);
    ObjectsUnion(h + a + t, c, x, p);
  }

  /** The participant node's own types; the age node is another node. */
  lemma ParticipantOwnTypes(d: ParticipantData)
    ensures var u := d.participantUri;
      Objects(ParticipantHeadTriples(d), u, RdfType) == {Iri(BFO_MATERIAL_ENTITY), Iri(BCIO_INTERVENTION_RECIPIENT)} &&
      Objects(AgeTriples(u, d.age), u, RdfType) == {} &&
      Objects({Triple(u, CreatedDate, DateTimeLit(d.createdDate))}, u, RdfType) == {}
  {
    var u := d.participantUri;
    assert |u + "/age_attribute"| > |u|;
    NoObjects(AgeTriples(u, d.age), u, RdfType);
    NoObjects({Triple(u, CreatedDate, DateTimeLit(d.createdDate))}, u, RdfType);
  }

  /** A participant node is typed exactly as a material entity and an intervention recipient. */
  lemma ParticipantTypes(d: ParticipantData)
    ensures Objects(ParticipantTriples(d), d.participantUri, RdfType)
      == {Iri(BFO_MATERIAL_ENTITY), Iri(BCIO_INTERVENTION_RECIPIENT)}
  {
    ParticipantObjects(d, d.participantUri, RdfType);
    ParticipantOwnTypes(d);
    TagsApart(d.participantUri, d.tags);
  }
}
