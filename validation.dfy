/**
 * `validate_against_bcio`: the only check it makes is that every encounter node has a
 * participant (`has_specified_input`) edge; a missing one is a warning, never an error.
 */
module Validation {
  import opened Rdf
  import opened Records
  import opened BcioUris
  import opened OntologyCore

  datatype ValidationReport = ValidationReport(valid: bool, warnings: seq<string>, errors: seq<string>)

  const MISSING_PARTICIPANT := "Some encounters missing participant references"

  /** A subject typed as an encounter (`BCIO_000001`) that has no `has_specified_input` edge. */
  predicate UnlinkedEncounter(g: set<Triple>, subject: string) {
    Triple(subject, RdfType, Iri(BCIO_ENCOUNTER)) in g &&
    Objects(g, subject, HasSpecifiedInput) == {}
  }

  /** The subjects the query selects. */
  function UnlinkedEncounters(g: set<Triple>): (found: set<string>)
    ensures forall subject :: subject in found <==> UnlinkedEncounter(g, subject)
  {
    set t | t in g && UnlinkedEncounter(g, t.s) :: t.s
  }

  /**
   * The report is always valid with no errors; it carries the one warning exactly when some
   * encounter node lacks a participant edge.
   */
  function ValidateAgainstBcio(g: set<Triple>): (r: ValidationReport)
    ensures r.valid && r.errors == []
    ensures r.warnings == [] || r.warnings == [MISSING_PARTICIPANT]
    ensures r.warnings == [MISSING_PARTICIPANT] <==> exists subject :: UnlinkedEncounter(g, subject)
  {
    var found := UnlinkedEncounters(g);
    if found != {} then
      ValidationReport(true, [MISSING_PARTICIPANT], [])
    else ValidationReport(true, [], [])
  }

  /** No class a BCT record or its fidelity type resolves to is the encounter class. */
  predicate BctsNotEncounters(e: EncounterData) {
    forall b :: b in e.bcts ==>
      ParseBcioUri(b.bctClass) != BCIO_ENCOUNTER && ParseBcioUri(b.fidelity.qualityType) != BCIO_ENCOUNTER
  }

  /** Within a BCT record, only the record's own class or fidelity type could be the encounter class. */
  lemma BctNotEncounter(b: BctRecord, enc: string)
    requires ParseBcioUri(b.bctClass) != BCIO_ENCOUNTER && ParseBcioUri(b.fidelity.qualityType) != BCIO_ENCOUNTER
    ensures forall x :: Triple(x, RdfType, Iri(BCIO_ENCOUNTER)) !in BctTriples(b, enc)
  {
    assert PATO_QUALITY != BCIO_ENCOUNTER && BCIO_FIDELITY_QUALITY != BCIO_ENCOUNTER;
  }

  /** The BCT writes of an encounter type nothing as an encounter. */
  lemma BctsNotEncounterTyped(e: EncounterData)
    requires BctsNotEncounters(e)
    ensures Subjects(BctsTriples(e.bcts, e.encounterUri), RdfType, Iri(BCIO_ENCOUNTER)) == {}
  {
    forall b | b in e.bcts
      ensures forall x :: Triple(x, RdfType, Iri(BCIO_ENCOUNTER)) !in BctTriples(b, e.encounterUri)
    {
      BctNotEncounter(b, e.encounterUri);
    }
    NoSubjects(BctsTriples(e.bcts, e.encounterUri), RdfType, Iri(BCIO_ENCOUNTER));
  }

  /** The head of an encounter's writes types the encounter node, and only it, as an encounter. */
  lemma HeadEncounterTyped(e: EncounterData)
    ensures Subjects(EncounterHeadTriples(e), RdfType, Iri(BCIO_ENCOUNTER)) == {e.encounterUri}
  {
  }

  /** The mode and duration nodes are not typed as encounters. */
  lemma QualitiesNotEncounterTyped(enc: string, mode: string, minutes: int)
    ensures Subjects(ModeQualityTriples(enc, mode), RdfType, Iri(BCIO_ENCOUNTER)) == {}
    ensures Subjects(DurationHeadTriples(enc), RdfType, Iri(BCIO_ENCOUNTER)) == {}
    ensures Subjects(DurationValueTriples(enc, minutes), RdfType, Iri(BCIO_ENCOUNTER)) == {}
  {
    assert BCIO_MODE_OF_DELIVERY != BCIO_ENCOUNTER && PATO_DURATION != BCIO_ENCOUNTER;
    NoSubjects(ModeQualityTriples(enc, mode), RdfType, Iri(BCIO_ENCOUNTER));
    NoSubjects(DurationHeadTriples(enc), RdfType, Iri(BCIO_ENCOUNTER));
    NoSubjects(DurationValueTriples(enc, minutes), RdfType, Iri(BCIO_ENCOUNTER));
  }

  /** Links and comments type nothing. */
  lemma LinksNotEncounterTyped(e: EncounterData)
    ensures Subjects(EncounterLinkTriples(e), RdfType, Iri(BCIO_ENCOUNTER)) == {}
    ensures Subjects(CommentTriples(e.encounterUri, e.encounterNotes), RdfType, Iri(BCIO_ENCOUNTER)) == {}
  {
    NoSubjects(EncounterLinkTriples(e), RdfType, Iri(BCIO_ENCOUNTER));
    NoSubjects(CommentTriples(e.encounterUri, e.encounterNotes), RdfType, Iri(BCIO_ENCOUNTER));
  }

  /** A union of parts of which only the first is non-empty is that part. */
  lemma OnlyFirstPart<T>(a: set<T>, b: set<T>, c: set<T>, d: set<T>, f: set<T>, g: set<T>, h: set<T>)
    requires b == {} && c == {} && d == {} && f == {} && g == {} && h == {}
    ensures a + b + c + d + f + g + h == a
  {
  }

  /** When no BCT record has the encounter class, the encounter node is the only encounter written. */
  lemma EncounterTypedOnce(e: EncounterData, minutes: int)
    requires BctsNotEncounters(e)
    ensures Subjects(EncounterTriples(e, minutes), RdfType, Iri(BCIO_ENCOUNTER)) == {e.encounterUri}
  {
    var enc, t := e.encounterUri, Iri(BCIO_ENCOUNTER);
    var h, m, dh, dv := EncounterHeadTriples(e), ModeQualityTriples(enc, e.modeOfDelivery),
      DurationHeadTriples(enc), DurationValueTriples(enc, minutes);
    var l, b, c := EncounterLinkTriples(e), BctsTriples(e.bcts, enc), CommentTriples(enc, e.encounterNotes);
    SubjectsUnion(h, m, RdfType, t);
    SubjectsUnion(h + m, dh, RdfType, t);
    SubjectsUnion(h + m + dh, dv, RdfType, t);
    SubjectsUnion(h + m + dh + dv, l, RdfType, t);
    SubjectsUnion(h + m + dh + dv + l, b, RdfType, t);
    SubjectsUnion(h + m + dh + dv + l + b, c, RdfType, t);
    HeadEncounterTyped(e);
    QualitiesNotEncounterTyped(enc, e.modeOfDelivery, minutes);
    LinksNotEncounterTyped(e);
    BctsNotEncounterTyped(e);
    OnlyFirstPart(Subjects(h, RdfType, t), Subjects(m, RdfType, t), Subjects(dh, RdfType, t),
      Subjects(dv, RdfType, t), Subjects(l, RdfType, t), Subjects(b, RdfType, t), Subjects(c, RdfType, t));
  }

  /** A partly written encounter types only the encounter node as an encounter. */
  lemma PrefixTypedOnce(e: EncounterData)
    ensures Subjects(EncounterPrefixTriples(e), RdfType, Iri(BCIO_ENCOUNTER)) == {e.encounterUri}
  {
    var enc, t := e.encounterUri, Iri(BCIO_ENCOUNTER);
    var h, m, dh := EncounterHeadTriples(e), ModeQualityTriples(enc, e.modeOfDelivery), DurationHeadTriples(enc);
    SubjectsUnion(h, m, RdfType, t);
    SubjectsUnion(h + m, dh, RdfType, t);
    HeadEncounterTyped(e);
    QualitiesNotEncounterTyped(enc, e.modeOfDelivery, 0);
  }

  /**
   * Adding writes whose only encounter node has a participant edge to a graph that validates
   * without warning keeps it so.
   */
  lemma LinkedEncounterKeepsClean(g: set<Triple>, w: set<Triple>, enc: string, participant: string)
    requires ValidateAgainstBcio(g).warnings == []
    requires Subjects(w, RdfType, Iri(BCIO_ENCOUNTER)) == {enc}
    requires Triple(enc, HasSpecifiedInput, Iri(participant)) in w
    ensures ValidateAgainstBcio(g + w).warnings == []
  {
    forall subject | Triple(subject, RdfType, Iri(BCIO_ENCOUNTER)) in g + w
      ensures !UnlinkedEncounter(g + w, subject)
    {
      if Triple(subject, RdfType, Iri(BCIO_ENCOUNTER)) in g {
        assert !UnlinkedEncounter(g, subject);
        var o :| o in Objects(g, subject, HasSpecifiedInput);
        assert o in Objects(g + w, subject, HasSpecifiedInput);
      } else {
        assert subject in Subjects(w, RdfType, Iri(BCIO_ENCOUNTER));
        assert Iri(participant) in Objects(g + w, enc, HasSpecifiedInput);
      }
    }
  }

  /**
   * Writing a whole encounter into a graph that validates without warning keeps it so, as
   * long as none of its BCT records is itself given the encounter class.
   */
  lemma EncounterKeepsGraphClean(g: set<Triple>, e: EncounterData, minutes: int)
    requires ValidateAgainstBcio(g).warnings == []
    requires BctsNotEncounters(e)
    ensures ValidateAgainstBcio(g + EncounterTriples(e, minutes)).warnings == []
  {
    EncounterTypedOnce(e, minutes);
    assert Triple(e.encounterUri, HasSpecifiedInput, Iri(e.deliveredToUri)) in EncounterHeadTriples(e);
    LinkedEncounterKeepsClean(g, EncounterTriples(e, minutes), e.encounterUri, e.deliveredToUri);
  }

  /** A partly written encounter (minutes not an integer) also keeps a clean graph clean. */
  lemma EncounterPrefixKeepsGraphClean(g: set<Triple>, e: EncounterData)
    requires ValidateAgainstBcio(g).warnings == []
    ensures ValidateAgainstBcio(g + EncounterPrefixTriples(e)).warnings == []
  {
    PrefixTypedOnce(e);
    assert Triple(e.encounterUri, HasSpecifiedInput, Iri(e.deliveredToUri)) in EncounterHeadTriples(e);
    LinkedEncounterKeepsClean(g, EncounterPrefixTriples(e), e.encounterUri, e.deliveredToUri);
  }

  /** A graph holding an encounter node and nothing else about it is reported. */
  lemma BareEncounterWarns(enc: string)
    ensures ValidateAgainstBcio({Triple(enc, RdfType, Iri(BCIO_ENCOUNTER))}).warnings == [MISSING_PARTICIPANT]
  {
    assert UnlinkedEncounter({Triple(enc, RdfType, Iri(BCIO_ENCOUNTER))}, enc);
  }
}
