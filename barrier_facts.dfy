/**
 * What the barrier-assessment engine guarantees about the graph it writes and reads: the
 * lookup errors, one barrier node per scored type whose IRI ignores the date, the follow-up
 * links and change scores, and the barriers a participant's query lists.
 */
module BarrierFacts {
  import opened Wrappers
  import opened Strings
  import opened Rdf
  import opened Barriers

  // ---------------------------------------------------------------------------------------
  // IRIs and tables
  // ---------------------------------------------------------------------------------------

  /** A barrier IRI and an assessment IRI never coincide: they part at the first letter after the namespace. */
  lemma BarrierNotAssessment(participant: string, domain: string, barrierType: string, timepoint: string,
                             participantId: string, domain2: string, timepoint2: string, date: string)
    ensures BarrierUri(participant, domain, barrierType, timepoint) != AssessmentUri(participantId, domain2, timepoint2, date)
  {
    assert BarrierUri(participant, domain, barrierType, timepoint)[25] == 'b';
    assert AssessmentUri(participantId, domain2, timepoint2, date)[25] == 'a';
  }

  /** Barrier IRIs that differ only in the barrier type differ. */
  lemma BarrierUriTypeInjective(participant: string, domain: string, a: string, b: string, timepoint: string)
    requires BarrierUri(participant, domain, a, timepoint) == BarrierUri(participant, domain, b, timepoint)
    ensures a == b
  {
    var p := BARRIER_NS + participant + "/" + domain + "/";
    assert BarrierUri(participant, domain, a, timepoint) == p + a + "/" + timepoint;
    assert BarrierUri(participant, domain, b, timepoint) == p + b + "/" + timepoint;
    assert |a| == |b|;
    assert a == (p + a + "/" + timepoint)[|p|..|p| + |a|];
    assert b == (p + b + "/" + timepoint)[|p|..|p| + |b|];
  }

  /** Barrier IRIs that differ only in the participant part differ. */
  lemma BarrierUriParticipantInjective(x: string, y: string, domain: string, barrierType: string, timepoint: string)
    requires BarrierUri(x, domain, barrierType, timepoint) == BarrierUri(y, domain, barrierType, timepoint)
    ensures x == y
  {
    var rest := "/" + domain + "/" + barrierType + "/" + timepoint;
    assert BarrierUri(x, domain, barrierType, timepoint) == BARRIER_NS + x + rest;
    assert BarrierUri(y, domain, barrierType, timepoint) == BARRIER_NS + y + rest;
    assert |x| == |y|;
    assert x == (BARRIER_NS + x + rest)[|BARRIER_NS|..|BARRIER_NS| + |x|];
    assert y == (BARRIER_NS + y + rest)[|BARRIER_NS|..|BARRIER_NS| + |y|];
  }

  /**
   * The node `_create_barrier_instance` names after `participant_uri.split('/')[-1]` is the
   * node the follow-up names after the raw participant id exactly when that id has no `/`.
   */
  lemma FollowUpMatchesCreatedNode(participantId: string, domain: string, barrierType: string, timepoint: string)
    ensures BarrierUri(LastSegment(ParticipantUri(participantId), '/'), domain, barrierType, timepoint)
        == BarrierUri(participantId, domain, barrierType, timepoint)
      <==> '/' !in participantId
  {
    var shown := LastSegment(ParticipantUri(participantId), '/');
    if '/' !in participantId {
      assert ParticipantUri(participantId) == (INTERVENTION_NS + "participant") + ['/'] + participantId;
      LastSegmentAfter(INTERVENTION_NS + "participant", '/', participantId);
    } else if BarrierUri(shown, domain, barrierType, timepoint) == BarrierUri(participantId, domain, barrierType, timepoint) {
      BarrierUriParticipantInjective(shown, participantId, domain, barrierType, timepoint);
      assert false;
    }
  }

  /** The domain an entry shows is the table's domain name: the text after the IRI's last `/`. */
  lemma DomainShown(domain: string)
    requires domain in DOMAINS
    ensures LastSegment(DomainIri(domain), '/') == DOMAINS[domain]
  {
    var name := DOMAINS[domain];
    assert '/' !in name;
    assert DomainIri(domain) == (INTERVENTION_NS + "domain") + ['/'] + name;
    LastSegmentAfter(INTERVENTION_NS + "domain", '/', name);
  }

  /** Every timepoint local name is `timepoint:` followed by a non-empty name without ':'. */
  lemma TimepointLocalShape(timepoint: string)
    requires timepoint in TIMEPOINTS
    ensures var local := TIMEPOINTS[timepoint];
      |local| > 10 && local == "timepoint:" + local[10..] && ':' !in local[10..]
  {
  }

  /** A local name `timepoint:<shown>` shows `<shown>`, the text after the IRI's last ':'. */
  lemma ColonLocalShown(ns: string, local: string)
    requires |local| > 10 && local == "timepoint:" + local[10..] && ':' !in local[10..]
    ensures var shown := LastSegment(ns + local, ':');
      ns + local == ns + "timepoint:" + shown && ':' !in shown && shown != ""
  {
    var shown := local[10..];
    assert "timepoint:" == "timepoint" + [':'];
    assert local == "timepoint" + [':'] + shown;
    assert ns + local == (ns + "timepoint") + [':'] + shown;
    LastSegmentAfter(ns + "timepoint", ':', shown);
  }

  /**
   * The timepoint an entry shows is the text after `timepoint:` in the table's local name
   * ("Baseline", "Day_30", ...), and the timepoint IRI is that text after `timepoint:`.
   */
  lemma TimepointShown(timepoint: string)
    requires timepoint in TIMEPOINTS
    ensures var shown := LastSegment(TimepointIri(timepoint), ':');
      TimepointIri(timepoint) == INTERVENTION_NS + "timepoint:" + shown && ':' !in shown && shown != ""
  {
    TimepointLocalShape(timepoint);
    ColonLocalShown(INTERVENTION_NS, TIMEPOINTS[timepoint]);
  }

  /**
   * The mechanism ids already carry `BCIO_`: written in the `BCIO` namespace they get the
   * prefix twice, while as OBO local names they are BCIO classes numbered by their digits.
   */
  lemma MechanismIris(barrierType: string)
    requires barrierType in BARRIER_TYPES
    ensures var m := BARRIER_TYPES[barrierType].mechanism;
      StartsWith(MechanismIriAsWritten(m), BCIO_NS + "BCIO_")
      && MechanismIri(m) == BCIO_NS + m[5..] && IsDigits(m[5..])
  {
    var m := BARRIER_TYPES[barrierType].mechanism;
    MechanismIdShape(barrierType);
    PrefixedMechanismIris(m);
  }

  /** Every mechanism id of the table is `BCIO_` and digits. */
  lemma MechanismIdShape(barrierType: string)
    requires barrierType in BARRIER_TYPES
    ensures var m := BARRIER_TYPES[barrierType].mechanism;
      m == "BCIO_" + m[5..] && IsDigits(m[5..])
  {
  }

  /** A `BCIO_` id doubles its prefix as written and loses it as an OBO local name. */
  lemma PrefixedMechanismIris(m: string)
    requires |m| >= 5 && m == "BCIO_" + m[5..]
    ensures StartsWith(MechanismIriAsWritten(m), BCIO_NS + "BCIO_")
    ensures MechanismIri(m) == BCIO_NS + m[5..]
  {
    assert MechanismIriAsWritten(m) == (BCIO_NS + "BCIO_") + m[5..];
    assert StartsWith(m, "BCIO_");
  }

  /** The skills mechanism as written: `http://purl.obolibrary.org/obo/BCIO_BCIO_0000532`. */
  lemma SkillsMechanismAsWritten()
    ensures MechanismIriAsWritten(BARRIER_TYPES["physical_capability"].mechanism)
      == "http://purl.obolibrary.org/obo/BCIO_BCIO_0000532"
    ensures MechanismIri(BARRIER_TYPES["physical_capability"].mechanism)
      == "http://purl.obolibrary.org/obo/BCIO_0000532"
  {
    var m := BARRIER_TYPES["physical_capability"].mechanism;
    assert m == "BCIO_0000532";
    SkillsIris(m);
  }

  lemma SkillsIris(m: string)
    requires m == "BCIO_0000532"
    ensures MechanismIriAsWritten(m) == "http://purl.obolibrary.org/obo/BCIO_BCIO_0000532"
    ensures MechanismIri(m) == "http://purl.obolibrary.org/obo/BCIO_0000532"
  {
  }

  // ---------------------------------------------------------------------------------------
  // Assessments
  // ---------------------------------------------------------------------------------------

  /** An assessment succeeds exactly when its timepoint, its domain and every barrier type are table keys. */
  lemma AssessmentSucceedsIffKnown(participantId: string, domain: string, timepoint: string,
                                   scores: seq<(string, int)>, date: string)
    ensures AssessmentResult(participantId, domain, timepoint, scores, date).Success?
      <==> timepoint in TIMEPOINTS && domain in DOMAINS && KnownTypes(scores)
  {
    var k := KnownPrefix(scores);
    if k == |scores| {
      assert scores[..k] == scores;
    } else {
      assert scores[k] in scores;
    }
  }

  /** The lookups happen in the order timepoint, domain, barrier types, and the first failure is reported. */
  lemma AssessmentErrors(participantId: string, domain: string, timepoint: string,
                         scores: seq<(string, int)>, date: string)
    ensures var r := AssessmentResult(participantId, domain, timepoint, scores, date);
      (r == Failure(UnknownTimepoint(timepoint)) <==> timepoint !in TIMEPOINTS)
      && (r == Failure(UnknownDomain(domain)) <==> timepoint in TIMEPOINTS && domain !in DOMAINS)
      && (r.Failure? && r.error.UnknownBarrierType? <==>
            timepoint in TIMEPOINTS && domain in DOMAINS && !KnownTypes(scores))
      && (r.Failure? && r.error.UnknownBarrierType? ==>
            r.error.barrierType !in BARRIER_TYPES && exists e :: e in scores && e.0 == r.error.barrierType)
  {
    AssessmentSucceedsIffKnown(participantId, domain, timepoint, scores, date);
    var k := KnownPrefix(scores);
    if k < |scores| {
      assert scores[k] in scores;
    }
  }

  /** Every triple of a barrier node has that node as subject. */
  lemma NodeSubject(b: string, info: BarrierInfo, participantUri: string, domainIri: string,
                    timepointIri: string, score: int, date: string)
    ensures forall t :: t in BarrierNodeTriples(b, info, participantUri, domainIri, timepointIri, score, date) ==> t.s == b
  {
  }

  /** A barrier node holds the score it is given, whatever integer it is: nothing checks a range. */
  lemma NodeScore(b: string, info: BarrierInfo, participantUri: string, domainIri: string,
                  timepointIri: string, score: int, date: string)
    ensures Objects(BarrierNodeTriples(b, info, participantUri, domainIri, timepointIri, score, date), b, HasSeverityScore)
      == {IntLit(score)}
  {
  }

  /** A barrier node is typed by its barrier class and as a BFO quality, and by nothing else. */
  lemma NodeTypes(b: string, info: BarrierInfo, participantUri: string, domainIri: string,
                  timepointIri: string, score: int, date: string)
    ensures Objects(BarrierNodeTriples(b, info, participantUri, domainIri, timepointIri, score, date), b, RdfType)
      == {Iri(BARRIER_NS + info.cls), Iri(BFO_QUALITY)}
  {
  }

  /** A barrier node inheres in the participant it was written for. */
  lemma NodeBearer(b: string, info: BarrierInfo, participantUri: string, domainIri: string,
                   timepointIri: string, score: int, date: string)
    ensures Objects(BarrierNodeTriples(b, info, participantUri, domainIri, timepointIri, score, date), b, InheresIn)
      == {Iri(participantUri)}
  {
  }

  /** A barrier node has one mechanism edge, to its type's mechanism id in the `BCIO` namespace. */
  lemma NodeMechanism(b: string, info: BarrierInfo, participantUri: string, domainIri: string,
                      timepointIri: string, score: int, date: string)
    ensures Objects(BarrierNodeTriples(b, info, participantUri, domainIri, timepointIri, score, date), b, AddressableByMechanism)
      == {Iri(MechanismIriAsWritten(info.mechanism))}
  {
  }

  /** No barrier node written for a score map is the assessment node. */
  lemma ScoreNodesNotAssessment(participantUri: string, scores: seq<(string, int)>, domain: string,
                                timepoint: string, date: string, a: string)
    requires KnownTypes(scores) && domain in DOMAINS && timepoint in TIMEPOINTS
    requires forall e :: e in scores ==> BarrierUri(LastSegment(participantUri, '/'), domain, e.0, timepoint) != a
    ensures forall t :: t in ScoreNodesTriples(participantUri, scores, domain, timepoint, date) ==> t.s != a
  {
    forall t | t in ScoreNodesTriples(participantUri, scores, domain, timepoint, date)
      ensures t.s != a
    {
      var e :| e in scores && t in BarrierTriples(participantUri, e.0, e.1, domain, timepoint, date);
      NodeSubject(BarrierUri(LastSegment(participantUri, '/'), domain, e.0, timepoint), BARRIER_TYPES[e.0],
                  participantUri, DomainIri(domain), TimepointIri(timepoint), e.1, date);
    }
  }

  /** The has-part edges written for a score map go to the barrier nodes of its entries. */
  lemma LinkedParts(assessment: string, participantUri: string, scores: seq<(string, int)>,
                    domain: string, timepoint: string)
    ensures Objects(ScoreLinksTriples(assessment, participantUri, scores, domain, timepoint), assessment, HasPart)
      == set e | e in scores :: Iri(BarrierUri(LastSegment(participantUri, '/'), domain, e.0, timepoint))
  {
  }

  /** The barrier nodes of a score map carry no has-part edge of an assessment node. */
  lemma ScoreNodesNoParts(participantId: string, scores: seq<(string, int)>, domain: string,
                          timepoint: string, date: string)
    requires KnownTypes(scores) && domain in DOMAINS && timepoint in TIMEPOINTS
    ensures Objects(ScoreNodesTriples(ParticipantUri(participantId), scores, domain, timepoint, date),
                    AssessmentUri(participantId, domain, timepoint, date), HasPart) == {}
  {
    var a := AssessmentUri(participantId, domain, timepoint, date);
    var pu := ParticipantUri(participantId);
    forall e | e in scores
      ensures BarrierUri(LastSegment(pu, '/'), domain, e.0, timepoint) != a
    {
      BarrierNotAssessment(LastSegment(pu, '/'), domain, e.0, timepoint, participantId, domain, timepoint, date);
    }
    ScoreNodesNotAssessment(pu, scores, domain, timepoint, date, a);
    NoObjects(ScoreNodesTriples(pu, scores, domain, timepoint, date), a, HasPart);
  }

  /**
   * The assessment's has-part edges go to one barrier node per entry written: all entries when
   * every type is known, those before the first unknown type otherwise; none for an empty map.
   */
  lemma AssessmentParts(participantId: string, domain: string, timepoint: string,
                        scores: seq<(string, int)>, date: string)
    requires timepoint in TIMEPOINTS && domain in DOMAINS
    ensures var a := AssessmentUri(participantId, domain, timepoint, date);
      var shown := LastSegment(ParticipantUri(participantId), '/');
      Objects(AssessmentWrites(participantId, domain, timepoint, scores, date), a, HasPart)
        == set e | e in scores[..KnownPrefix(scores)] :: Iri(BarrierUri(shown, domain, e.0, timepoint))
  {
    var a := AssessmentUri(participantId, domain, timepoint, date);
    var pu := ParticipantUri(participantId);
    var written := scores[..KnownPrefix(scores)];
    var own := AssessmentTriples(participantId, domain, timepoint, date);
    var nodes := ScoreNodesTriples(pu, written, domain, timepoint, date);
    var links := ScoreLinksTriples(a, pu, written, domain, timepoint);
    AssessmentNodeNoParts(participantId, domain, timepoint, date);
    ScoreNodesNoParts(participantId, written, domain, timepoint, date);
    LinkedParts(a, pu, written, domain, timepoint);
    OnlyLinksHaveParts(own, nodes, links, a);
  }

  /** The assessment node's own triples include no has-part edge. */
  lemma AssessmentNodeNoParts(participantId: string, domain: string, timepoint: string, date: string)
    requires timepoint in TIMEPOINTS && domain in DOMAINS
    ensures Objects(AssessmentTriples(participantId, domain, timepoint, date),
                    AssessmentUri(participantId, domain, timepoint, date), HasPart) == {}
  {
    NoObjects(AssessmentTriples(participantId, domain, timepoint, date),
              AssessmentUri(participantId, domain, timepoint, date), HasPart);
  }

  lemma OnlyLinksHaveParts(own: set<Triple>, nodes: set<Triple>, links: set<Triple>, a: string)
    requires Objects(own, a, HasPart) == {} && Objects(nodes, a, HasPart) == {}
    ensures Objects(own + (nodes + links), a, HasPart) == Objects(links, a, HasPart)
  {
    ObjectsUnion(nodes, links, a, HasPart);
    ObjectsUnion(own, nodes + links, a, HasPart);
  }

  /** An assessment with an empty score map still creates the typed assessment node, with no parts. */
  lemma EmptyAssessment(participantId: string, domain: string, timepoint: string, date: string)
    requires timepoint in TIMEPOINTS && domain in DOMAINS
    ensures var a := AssessmentUri(participantId, domain, timepoint, date);
      var g := AssessmentWrites(participantId, domain, timepoint, [], date);
      AssessmentResult(participantId, domain, timepoint, [], date) == Success(a)
      && Triple(a, RdfType, Iri(BCIO_ASSESSMENT)) in g
      && Objects(g, a, HasPart) == {}
  {
    AssessmentParts(participantId, domain, timepoint, [], date);
  }

  /**
   * The barrier node `_create_barrier_instance` writes for a type records the score, inheres in
   * the participant and is typed by the type's class and as a quality.
   */
  lemma BarrierNodeFacts(participantUri: string, barrierType: string, score: int, domain: string,
                         timepoint: string, date: string)
    requires barrierType in BARRIER_TYPES && domain in DOMAINS && timepoint in TIMEPOINTS
    ensures var g := BarrierTriples(participantUri, barrierType, score, domain, timepoint, date);
      var b := BarrierUri(LastSegment(participantUri, '/'), domain, barrierType, timepoint);
      Objects(g, b, HasSeverityScore) == {IntLit(score)}
      && Objects(g, b, InheresIn) == {Iri(participantUri)}
      && Objects(g, b, RdfType) == {Iri(BARRIER_NS + BARRIER_TYPES[barrierType].cls), Iri(BFO_QUALITY)}
      && Objects(g, b, AddressableByMechanism) == {Iri(MechanismIriAsWritten(BARRIER_TYPES[barrierType].mechanism))}
  {
    var b := BarrierUri(LastSegment(participantUri, '/'), domain, barrierType, timepoint);
    var info := BARRIER_TYPES[barrierType];
    NodeScore(b, info, participantUri, DomainIri(domain), TimepointIri(timepoint), score, date);
    NodeTypes(b, info, participantUri, DomainIri(domain), TimepointIri(timepoint), score, date);
    NodeBearer(b, info, participantUri, DomainIri(domain), TimepointIri(timepoint), score, date);
    NodeMechanism(b, info, participantUri, DomainIri(domain), TimepointIri(timepoint), score, date);
  }

  /**
   * The date is not part of a barrier IRI: two assessments of the same type, participant,
   * domain and timepoint on different dates write to one node, which then holds both scores.
   */
  lemma ReassessedSameNode(participantUri: string, barrierType: string, domain: string, timepoint: string,
                           score1: int, date1: string, score2: int, date2: string)
    requires barrierType in BARRIER_TYPES && domain in DOMAINS && timepoint in TIMEPOINTS
    ensures var b := BarrierUri(LastSegment(participantUri, '/'), domain, barrierType, timepoint);
      Objects(BarrierTriples(participantUri, barrierType, score1, domain, timepoint, date1)
              + BarrierTriples(participantUri, barrierType, score2, domain, timepoint, date2), b, HasSeverityScore)
        == {IntLit(score1), IntLit(score2)}
  {
    var b := BarrierUri(LastSegment(participantUri, '/'), domain, barrierType, timepoint);
    var g1 := BarrierTriples(participantUri, barrierType, score1, domain, timepoint, date1);
    var g2 := BarrierTriples(participantUri, barrierType, score2, domain, timepoint, date2);
    BarrierNodeFacts(participantUri, barrierType, score1, domain, timepoint, date1);
    BarrierNodeFacts(participantUri, barrierType, score2, domain, timepoint, date2);
    ObjectsUnion(g1, g2, b, HasSeverityScore);
  }

  // ---------------------------------------------------------------------------------------
  // Follow-ups
  // ---------------------------------------------------------------------------------------

  /** The triples of one entry's follow-up all have that entry's follow-up node as subject. */
  lemma FollowUpEntrySubject(participantId: string, domain: string, timepoint: string,
                             entry: (string, int), baseline: Option<int>)
    ensures forall t :: t in FollowUpEntryTriples(participantId, domain, timepoint, entry, baseline) ==>
      t.s == BarrierUri(participantId, domain, entry.0, timepoint)
  {
  }

  /** A follow-up writes nothing about the follow-up node of a type its score map does not have. */
  lemma {:induction false} FollowUpOtherType(participantId: string, domain: string, timepoint: string,
                                             scores: seq<(string, int)>, baselines: seq<Option<int>>,
                                             barrierType: string, p: Predicate)
    requires |baselines| == |scores|
    requires forall e :: e in scores ==> e.0 != barrierType
    ensures Objects(FollowUpTriples(participantId, domain, timepoint, scores, baselines),
                    BarrierUri(participantId, domain, barrierType, timepoint), p) == {}
    decreases |scores|
  {
    if |scores| > 0 {
      var n := |scores| - 1;
      var f := BarrierUri(participantId, domain, barrierType, timepoint);
      var last := FollowUpEntryTriples(participantId, domain, timepoint, scores[n], baselines[n]);
      assert forall e :: e in scores[..n] ==> e in scores;
      FollowUpOtherType(participantId, domain, timepoint, scores[..n], baselines[..n], barrierType, p);
      FollowUpEntrySubject(participantId, domain, timepoint, scores[n], baselines[n]);
      if f == BarrierUri(participantId, domain, scores[n].0, timepoint) {
        BarrierUriTypeInjective(participantId, domain, barrierType, scores[n].0, timepoint);
        assert false;
      }
      NoObjects(last, f, p);
      ObjectsUnion(FollowUpTriples(participantId, domain, timepoint, scores[..n], baselines[..n]), last, f, p);
    }
  }

  /** With distinct barrier types, a follow-up node's triples are those of its own entry. */
  lemma {:induction false} FollowUpOwnEntry(participantId: string, domain: string, timepoint: string,
                                            scores: seq<(string, int)>, baselines: seq<Option<int>>, i: nat, p: Predicate)
    requires |baselines| == |scores| && i < |scores| && DistinctKeys(scores)
    ensures var f := BarrierUri(participantId, domain, scores[i].0, timepoint);
      Objects(FollowUpTriples(participantId, domain, timepoint, scores, baselines), f, p)
        == Objects(FollowUpEntryTriples(participantId, domain, timepoint, scores[i], baselines[i]), f, p)
    decreases |scores|
  {
    var n := |scores| - 1;
    var f := BarrierUri(participantId, domain, scores[i].0, timepoint);
    var prefix := FollowUpTriples(participantId, domain, timepoint, scores[..n], baselines[..n]);
    var last := FollowUpEntryTriples(participantId, domain, timepoint, scores[n], baselines[n]);
    ObjectsUnion(prefix, last, f, p);
    if i == n {
      forall e | e in scores[..n]
        ensures e.0 != scores[n].0
      {
        var j :| 0 <= j < n && scores[..n][j] == e;
        assert scores[j] == e;
      }
      FollowUpOtherType(participantId, domain, timepoint, scores[..n], baselines[..n], scores[n].0, p);
    } else {
      assert DistinctKeys(scores[..n]);
      FollowUpOwnEntry(participantId, domain, timepoint, scores[..n], baselines[..n], i, p);
      assert scores[..n][i] == scores[i] && baselines[..n][i] == baselines[i];
      FollowUpEntrySubject(participantId, domain, timepoint, scores[n], baselines[n]);
      if f == BarrierUri(participantId, domain, scores[n].0, timepoint) {
        BarrierUriTypeInjective(participantId, domain, scores[i].0, scores[n].0, timepoint);
        assert false;
      }
      NoObjects(last, f, p);
    }
  }

  /**
   * Every scored type's follow-up node is linked to the baseline IRI recomputed from the raw
   * participant id, whether or not a node with that IRI exists.
   */
  lemma FollowUpLink(participantId: string, domain: string, timepoint: string,
                     scores: seq<(string, int)>, baselines: seq<Option<int>>, i: nat)
    requires |baselines| == |scores| && i < |scores| && DistinctKeys(scores)
    ensures Objects(FollowUpTriples(participantId, domain, timepoint, scores, baselines),
                    BarrierUri(participantId, domain, scores[i].0, timepoint), IsReassessmentOf)
      == {Iri(BarrierUri(participantId, domain, scores[i].0, "baseline"))}
  {
    FollowUpOwnEntry(participantId, domain, timepoint, scores, baselines, i, IsReassessmentOf);
  }

  /** A follow-up node gets the change `followup - baseline` when a baseline score was read, and none otherwise. */
  lemma FollowUpChange(participantId: string, domain: string, timepoint: string,
                       scores: seq<(string, int)>, baselines: seq<Option<int>>, i: nat)
    requires |baselines| == |scores| && i < |scores| && DistinctKeys(scores)
    ensures Objects(FollowUpTriples(participantId, domain, timepoint, scores, baselines),
                    BarrierUri(participantId, domain, scores[i].0, timepoint), HasChangeFromBaseline)
      == if baselines[i].Some? then {IntLit(scores[i].1 - baselines[i].value)} else {}
  {
    FollowUpOwnEntry(participantId, domain, timepoint, scores, baselines, i, HasChangeFromBaseline);
  }

  /** The outcome class is a reduction for a negative change, an increase for a positive one, stable for zero. */
  lemma OutcomeClasses(change: int)
    ensures Outcome(change) == BARRIER_REDUCTION <==> change < 0
    ensures Outcome(change) == BARRIER_INCREASE <==> change > 0
    ensures Outcome(change) == BARRIER_STABLE <==> change == 0
  {
    assert BARRIER_REDUCTION[41] == 'R' && BARRIER_INCREASE[41] == 'I' && BARRIER_STABLE[41] == 'S';
  }

  /**
   * A follow-up node gets exactly one outcome class when a baseline score was read (reduction,
   * increase or stable, by the sign of the change), and no type otherwise.
   */
  lemma FollowUpOutcome(participantId: string, domain: string, timepoint: string,
                        scores: seq<(string, int)>, baselines: seq<Option<int>>, i: nat)
    requires |baselines| == |scores| && i < |scores| && DistinctKeys(scores)
    ensures Objects(FollowUpTriples(participantId, domain, timepoint, scores, baselines),
                    BarrierUri(participantId, domain, scores[i].0, timepoint), RdfType)
      == if baselines[i].Some? then {Iri(Outcome(scores[i].1 - baselines[i].value))} else {}
  {
    FollowUpOwnEntry(participantId, domain, timepoint, scores, baselines, i, RdfType);
  }

  /**
   * A change edge is written for an entry exactly when its baseline node has a severity score
   * in the graph the follow-up read, and it is then the one change `followup - baseline` for
   * one of those scores.
   */
  lemma ChangeIffBaselineScored(g: set<Triple>, participantId: string, domain: string, timepoint: string,
                                scores: seq<(string, int)>, baselines: seq<Option<int>>, i: nat)
    requires BaselinesRead(g, participantId, domain, scores, baselines)
    requires i < |scores| && DistinctKeys(scores)
    ensures var changes := Objects(FollowUpTriples(participantId, domain, timepoint, scores, baselines),
                                   BarrierUri(participantId, domain, scores[i].0, timepoint), HasChangeFromBaseline);
      var base := SeverityScores(g, BarrierUri(participantId, domain, scores[i].0, "baseline"));
      changes != {} <==> base != {}
    ensures var changes := Objects(FollowUpTriples(participantId, domain, timepoint, scores, baselines),
                                   BarrierUri(participantId, domain, scores[i].0, timepoint), HasChangeFromBaseline);
      var base := SeverityScores(g, BarrierUri(participantId, domain, scores[i].0, "baseline"));
      changes == {} || exists b :: b in base && changes == {IntLit(scores[i].1 - b)}
  {
    FollowUpChange(participantId, domain, timepoint, scores, baselines, i);
    assert BaselineRead(g, BarrierUri(participantId, domain, scores[i].0, "baseline"), baselines[i]);
  }

  /** A baseline assessment's score is on the node a follow-up of a participant id without `/` reads. */
  lemma FollowUpFindsBaseline(g: set<Triple>, participantId: string, domain: string, baselineScores: seq<(string, int)>,
                              date: string, barrierType: string, score: int)
    requires KnownTypes(baselineScores) && domain in DOMAINS && "baseline" in TIMEPOINTS
    requires ScoreNodesTriples(ParticipantUri(participantId), baselineScores, domain, "baseline", date) <= g
    requires (barrierType, score) in baselineScores && '/' !in participantId
    ensures score in SeverityScores(g, BarrierUri(participantId, domain, barrierType, "baseline"))
  {
    var pu := ParticipantUri(participantId);
    FollowUpMatchesCreatedNode(participantId, domain, barrierType, "baseline");
    assert BarrierTriples(pu, barrierType, score, domain, "baseline", date)
      <= ScoreNodesTriples(pu, baselineScores, domain, "baseline", date);
  }

  // ---------------------------------------------------------------------------------------
  // The participant query
  // ---------------------------------------------------------------------------------------

  /** The joined solutions are exactly the rows meeting every pattern and filter of the query. */
  lemma SolutionsExact(g: set<Triple>, participantId: string, domainIri: Option<string>,
                       timepointIri: Option<string>, r: Row)
    ensures r in Solutions(g, participantId, domainIri, timepointIri)
      <==> IsSolution(g, participantId, domainIri, timepointIri, r)
  {
    if IsSolution(g, participantId, domainIri, timepointIri, r) {
      SolutionListed(g, participantId, domainIri, timepointIri, r);
    }
    if r in Solutions(g, participantId, domainIri, timepointIri) {
      ListedSolution(g, participantId, domainIri, timepointIri, r);
    }
  }

  lemma SolutionListed(g: set<Triple>, participantId: string, domainIri: Option<string>,
                       timepointIri: Option<string>, r: Row)
    requires IsSolution(g, participantId, domainIri, timepointIri, r)
    ensures r in Solutions(g, participantId, domainIri, timepointIri)
  {
    ChangeBound(g, r.barrier, r.change);
    RowJoined(g, r);
    var s := Triple(r.barrier, HasSeverityScore, IntLit(r.score));
    assert s in g && s.p == HasSeverityScore && s.o.IntLit? && s.o.value == r.score;
  }

  lemma ListedSolution(g: set<Triple>, participantId: string, domainIri: Option<string>,
                       timepointIri: Option<string>, r: Row)
    requires r in Solutions(g, participantId, domainIri, timepointIri)
    ensures IsSolution(g, participantId, domainIri, timepointIri, r)
  {
    var s :| s in g && s.p == HasSeverityScore && s.o.IntLit?
             && Selected(g, s.s, participantId, domainIri, timepointIri)
             && r in BarrierRows(g, s.s, s.o.value);
    RowOfBarrier(g, s.s, s.o.value, r);
    BindingMeans(g, r.barrier, r.change);
  }

  /** Each of a barrier's rows carries its score and matching label, domain, timepoint and change. */
  lemma RowOfBarrier(g: set<Triple>, barrier: string, score: int, r: Row)
    requires r in BarrierRows(g, barrier, score)
    ensures r.barrier == barrier && r.score == score
    ensures Triple(barrier, RdfsLabel, r.name) in g
    ensures Triple(barrier, ConcernsDomain, r.domain) in g
    ensures Triple(barrier, AssessedAtTimepoint, r.timepoint) in g
    ensures r.change in ChangeBindings(g, barrier)
  {
  }

  /** A binding is unbound only for a barrier without changes, and otherwise one of its integer changes. */
  lemma BindingMeans(g: set<Triple>, barrier: string, change: Option<int>)
    requires change in ChangeBindings(g, barrier)
    ensures change.None? ==> Objects(g, barrier, HasChangeFromBaseline) == {}
    ensures change.Some? ==> Triple(barrier, HasChangeFromBaseline, IntLit(change.value)) in g
  {
  }

  /** A change that is unbound for a barrier without changes, or one of its integer changes, is a binding. */
  lemma ChangeBound(g: set<Triple>, barrier: string, change: Option<int>)
    requires change.None? ==> Objects(g, barrier, HasChangeFromBaseline) == {}
    requires change.Some? ==> Triple(barrier, HasChangeFromBaseline, IntLit(change.value)) in g
    ensures change in ChangeBindings(g, barrier)
  {
    if change.Some? {
      assert IntLit(change.value) in Objects(g, barrier, HasChangeFromBaseline);
    }
  }

  /** A row whose label, domain, timepoint and change all match is one of its barrier's rows. */
  lemma RowJoined(g: set<Triple>, r: Row)
    requires Triple(r.barrier, RdfsLabel, r.name) in g
    requires Triple(r.barrier, ConcernsDomain, r.domain) in g
    requires Triple(r.barrier, AssessedAtTimepoint, r.timepoint) in g
    requires r.change in ChangeBindings(g, r.barrier)
    ensures r in BarrierRows(g, r.barrier, r.score)
  {
    assert r.name in Objects(g, r.barrier, RdfsLabel);
    assert r.domain in Objects(g, r.barrier, ConcernsDomain);
    assert r.timepoint in Objects(g, r.barrier, AssessedAtTimepoint);
  }

  /**
   * A barrier node in the graph whose IRI contains the participant id, and whose changes are
   * all integers, gives a solution with its own label, domain, timepoint and score.
   */
  lemma NodeRowListed(g: set<Triple>, participantId: string, b: string, name: Node,
                      domainIri: string, timepointIri: string, score: int,
                      domainFilter: Option<string>, timepointFilter: Option<string>)
    requires Triple(b, HasSeverityScore, IntLit(score)) in g && Triple(b, RdfsLabel, name) in g
    requires Triple(b, ConcernsDomain, Iri(domainIri)) in g && Triple(b, AssessedAtTimepoint, Iri(timepointIri)) in g
    requires Contains(b, participantId)
    requires forall o :: o in Objects(g, b, HasChangeFromBaseline) ==> o.IntLit?
    requires domainFilter == None || domainFilter == Some(domainIri)
    requires timepointFilter == None || timepointFilter == Some(timepointIri)
    ensures exists c ::
      Row(b, name, Iri(domainIri), Iri(timepointIri), score, c) in Solutions(g, participantId, domainFilter, timepointFilter)
  {
    var changes := Objects(g, b, HasChangeFromBaseline);
    var c: Option<int> := None;
    if changes != {} {
      var o :| o in changes;
      c := Some(o.value);
    }
    var r := Row(b, name, Iri(domainIri), Iri(timepointIri), score, c);
    assert IsSolution(g, participantId, domainFilter, timepointFilter, r);
    SolutionsExact(g, participantId, domainFilter, timepointFilter, r);
  }

  /** A barrier IRI contains the participant part it was built from. */
  lemma BarrierUriContainsParticipant(participantId: string, domain: string, barrierType: string, timepoint: string)
    ensures Contains(BarrierUri(participantId, domain, barrierType, timepoint), participantId)
  {
    var b := BarrierUri(participantId, domain, barrierType, timepoint);
    assert b == BARRIER_NS + participantId + ("/" + domain + "/" + barrierType + "/" + timepoint);
    ContainsAt(b, participantId, |BARRIER_NS|);
  }

  /** For a participant id without `/`, the created node carries its score, label, domain and timepoint under the id's IRI. */
  lemma CreatedNodeTriples(g: set<Triple>, participantId: string, barrierType: string, score: int,
                           domain: string, timepoint: string, date: string)
    requires barrierType in BARRIER_TYPES && domain in DOMAINS && timepoint in TIMEPOINTS
    requires BarrierTriples(ParticipantUri(participantId), barrierType, score, domain, timepoint, date) <= g
    requires '/' !in participantId
    ensures var b := BarrierUri(participantId, domain, barrierType, timepoint);
      Triple(b, HasSeverityScore, IntLit(score)) in g
      && Triple(b, RdfsLabel, LangLit(BARRIER_TYPES[barrierType].name, "en")) in g
      && Triple(b, ConcernsDomain, Iri(DomainIri(domain))) in g
      && Triple(b, AssessedAtTimepoint, Iri(TimepointIri(timepoint))) in g
  {
    FollowUpMatchesCreatedNode(participantId, domain, barrierType, timepoint);
  }

  /**
   * A barrier written for a participant whose id has no `/` is listed by the participant's
   * query, unfiltered or filtered by its own domain and timepoint, with its score, its label,
   * its domain and its timepoint.
   */
  lemma AssessedBarrierListed(g: set<Triple>, participantId: string, barrierType: string, score: int,
                              domain: string, timepoint: string, date: string,
                              domainFilter: Option<string>, timepointFilter: Option<string>)
    requires barrierType in BARRIER_TYPES && domain in DOMAINS && timepoint in TIMEPOINTS
    requires BarrierTriples(ParticipantUri(participantId), barrierType, score, domain, timepoint, date) <= g
    requires '/' !in participantId
    requires var b := BarrierUri(participantId, domain, barrierType, timepoint);
      forall o :: o in Objects(g, b, HasChangeFromBaseline) ==> o.IntLit?
    requires domainFilter == None || domainFilter == Some(DomainIri(domain))
    requires timepointFilter == None || timepointFilter == Some(TimepointIri(timepoint))
    ensures exists c ::
      Row(BarrierUri(participantId, domain, barrierType, timepoint), LangLit(BARRIER_TYPES[barrierType].name, "en"),
          Iri(DomainIri(domain)), Iri(TimepointIri(timepoint)), score, c)
        in Solutions(g, participantId, domainFilter, timepointFilter)
  {
    CreatedNodeTriples(g, participantId, barrierType, score, domain, timepoint, date);
    BarrierUriContainsParticipant(participantId, domain, barrierType, timepoint);
    NodeRowListed(g, participantId, BarrierUri(participantId, domain, barrierType, timepoint),
                  LangLit(BARRIER_TYPES[barrierType].name, "en"), DomainIri(domain), TimepointIri(timepoint), score,
                  domainFilter, timepointFilter);
  }

  /**
   * The entry shown for a barrier's row: its label, the table's domain name and the
   * timepoint's short name, with the row's score and the change as the source reads it.
   */
  lemma BarrierRowShown(b: string, barrierType: string, domain: string, timepoint: string, score: int, change: Option<int>)
    requires barrierType in BARRIER_TYPES && domain in DOMAINS && timepoint in TIMEPOINTS
    ensures var v := ViewAsWritten(Row(b, LangLit(BARRIER_TYPES[barrierType].name, "en"), Iri(DomainIri(domain)),
                                       Iri(TimepointIri(timepoint)), score, change));
      v == BarrierView(b, BARRIER_TYPES[barrierType].name, DOMAINS[domain],
                       LastSegment(TimepointIri(timepoint), ':'), score, ChangeAsWritten(change))
  {
    DomainShown(domain);
  }
}
