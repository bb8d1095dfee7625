/**
 * The COM-B barrier-assessment engine (`barrier_assessment.py`): the fixed tables of barrier
 * types, timepoints and domains, the triples an assessment and a follow-up write, and the
 * filtered, ordered read of a participant's barriers. The graph operations are methods of
 * `BarrierAssessmentGraph`, each proved against a function giving exactly the triples it
 * adds; the lemmas about those functions are in `BarrierFacts`.
 */
module Barriers {
  import opened Wrappers
  import opened Strings
  import opened StringOrder
  import opened Rdf

  // ---------------------------------------------------------------------------------------
  // The tables of `BarrierAssessment`
  // ---------------------------------------------------------------------------------------

  /** One COM-B barrier type: its class local name, its English label and its BCIO mechanism id. */
  datatype BarrierInfo = BarrierInfo(cls: string, name: string, mechanism: string)

  const BARRIER_TYPES: map<string, BarrierInfo> := map[
    "physical_capability" := BarrierInfo("Physical_Capability_Barrier", "Physical Capability Barrier", "BCIO_0000532"),
    "psychological_capability" := BarrierInfo("Psychological_Capability_Barrier", "Psychological Capability Barrier", "BCIO_0000532"),
    "physical_opportunity" := BarrierInfo("Physical_Opportunity_Barrier", "Physical Opportunity Barrier", "BCIO_0000536"),
    "social_opportunity" := BarrierInfo("Social_Opportunity_Barrier", "Social Opportunity Barrier", "BCIO_0000537"),
    "reflective_motivation" := BarrierInfo("Reflective_Motivation_Barrier", "Reflective Motivation Barrier", "BCIO_0000533"),
    "automatic_motivation" := BarrierInfo("Automatic_Motivation_Barrier", "Automatic Motivation Barrier", "BCIO_0000534")
  ]

  /** Timepoint keys and the local names of their IRIs (in the `INTERVENTION` namespace, colon included). */
  const TIMEPOINTS: map<string, string> := map[
    "baseline" := "timepoint:Baseline",
    "day_30" := "timepoint:Day_30",
    "day_90" := "timepoint:Day_90",
    "day_180" := "timepoint:Day_180"
  ]

  const DOMAINS: map<string, string> := map[
    "employment" := "Employment_Domain",
    "accommodation" := "Accommodation_Domain",
    "substance_use" := "Substance_Use_Domain",
    "relationships" := "Relationships_Domain",
    "attitudes" := "Attitudes_Domain",
    "leisure" := "Leisure_Domain"
  ]

  /** The `KeyError` a lookup in one of the tables raises. */
  datatype AssessmentError =
    | UnknownTimepoint(timepoint: string)
    | UnknownDomain(domain: string)
    | UnknownBarrierType(barrierType: string)

  // ---------------------------------------------------------------------------------------
  // IRIs
  // ---------------------------------------------------------------------------------------

  function ParticipantUri(participantId: string): string {
    INTERVENTION_NS + "participant/" + participantId
  }

  function AssessmentUri(participantId: string, domain: string, timepoint: string, date: string): string {
    INTERVENTION_NS + "assessment/" + participantId + "/" + domain + "/" + timepoint + "/" + date
  }

  function TimepointIri(timepoint: string): string
    requires timepoint in TIMEPOINTS
  {
    INTERVENTION_NS + TIMEPOINTS[timepoint]
  }

  function DomainIri(domain: string): string
    requires domain in DOMAINS
  {
    INTERVENTION_NS + "domain/" + DOMAINS[domain]
  }

  /**
   * The IRI of a barrier node: participant, domain key, barrier-type key and timepoint key,
   * and nothing else (in particular not the assessment date).
   */
  function BarrierUri(participant: string, domain: string, barrierType: string, timepoint: string): string {
    BARRIER_NS + participant + "/" + domain + "/" + barrierType + "/" + timepoint
  }

  const OBO_NS := "http://purl.obolibrary.org/obo/"

  /**
   * The mechanism IRI as `_create_barrier_instance` writes it: the table's ids already start
   * with `BCIO_` and the `BCIO` namespace adds that prefix a second time.
   */
  function MechanismIriAsWritten(mechanism: string): (iri: string)
    ensures |iri| == |BCIO_NS| + |mechanism| && iri[|BCIO_NS|..] == mechanism
  {
    BCIO_NS + mechanism
  }

  /** The mechanism IRI the table's ids denote: the id is the local name in the OBO namespace. */
  function MechanismIri(mechanism: string): (iri: string)
    ensures StartsWith(mechanism, "BCIO_") ==> StartsWith(iri, BCIO_NS) && iri[|BCIO_NS|..] == mechanism[5..]
  {
    var iri := OBO_NS + mechanism;
    assert StartsWith(mechanism, "BCIO_") ==> iri[..|BCIO_NS|] == OBO_NS + mechanism[..5];
    iri
  }

  // ---------------------------------------------------------------------------------------
  // What an assessment writes
  // ---------------------------------------------------------------------------------------

  /** The four triples `add_barrier_assessment` writes before its first table lookup. */
  function AssessmentHeadTriples(participantId: string, domain: string, timepoint: string, date: string): set<Triple> {
    var a := AssessmentUri(participantId, domain, timepoint, date);
    {Triple(a, RdfType, Iri(BCIO_ASSESSMENT)),
     Triple(a, RdfsLabel, LangLit("Barrier Assessment - " + domain, "en")),
     Triple(a, HasSpecifiedInput, Iri(ParticipantUri(participantId))),
     Triple(a, HasTemporalValue, DateTimeLit(date))}
  }

  function TimepointTriple(participantId: string, domain: string, timepoint: string, date: string): Triple
    requires timepoint in TIMEPOINTS
  {
    Triple(AssessmentUri(participantId, domain, timepoint, date), AssessedAtTimepoint, Iri(TimepointIri(timepoint)))
  }

  function DomainTriple(participantId: string, domain: string, timepoint: string, date: string): Triple
    requires domain in DOMAINS
  {
    Triple(AssessmentUri(participantId, domain, timepoint, date), ConcernsDomain, Iri(DomainIri(domain)))
  }

  /** The assessment node's own triples once both lookups succeeded. */
  function AssessmentTriples(participantId: string, domain: string, timepoint: string, date: string): set<Triple>
    requires timepoint in TIMEPOINTS && domain in DOMAINS
  {
    AssessmentHeadTriples(participantId, domain, timepoint, date)
      + {TimepointTriple(participantId, domain, timepoint, date), DomainTriple(participantId, domain, timepoint, date)}
  }

  /** The nine triples `_create_barrier_instance` writes, once its lookups are done; the mechanism edge carries the doubled `BCIO_` prefix. */
  function BarrierNodeTriples(b: string, info: BarrierInfo, participantUri: string, domainIri: string,
                              timepointIri: string, score: int, date: string): set<Triple>
  {
    {Triple(b, RdfType, Iri(BARRIER_NS + info.cls)),
     Triple(b, RdfType, Iri(BFO_QUALITY)),
     Triple(b, RdfsLabel, LangLit(info.name, "en")),
     Triple(b, InheresIn, Iri(participantUri)),
     Triple(b, ConcernsDomain, Iri(domainIri)),
     Triple(b, AssessedAtTimepoint, Iri(timepointIri)),
     Triple(b, HasSeverityScore, IntLit(score)),
     Triple(b, HasAssessmentDate, DateTimeLit(date)),
     Triple(b, AddressableByMechanism, Iri(MechanismIriAsWritten(info.mechanism)))}
  }

  /** The triples `_create_barrier_instance` writes for one barrier type and score. */
  function BarrierTriples(participantUri: string, barrierType: string, score: int, domain: string,
                          timepoint: string, date: string): set<Triple>
    requires barrierType in BARRIER_TYPES && domain in DOMAINS && timepoint in TIMEPOINTS
  {
    BarrierNodeTriples(BarrierUri(LastSegment(participantUri, '/'), domain, barrierType, timepoint),
                       BARRIER_TYPES[barrierType], participantUri, DomainIri(domain), TimepointIri(timepoint),
                       score, date)
  }

  /** Every entry of a score map names a known barrier type. */
  predicate KnownTypes(scores: seq<(string, int)>) {
    forall e :: e in scores ==> e.0 in BARRIER_TYPES
  }

  /** A score map is a Python dict: no barrier type occurs twice. */
  predicate DistinctKeys(scores: seq<(string, int)>) {
    forall i, j :: 0 <= i < j < |scores| ==> scores[i].0 != scores[j].0
  }

  /** The barrier nodes written for a score map. */
  function ScoreNodesTriples(participantUri: string, scores: seq<(string, int)>,
                             domain: string, timepoint: string, date: string): set<Triple>
    requires KnownTypes(scores) && domain in DOMAINS && timepoint in TIMEPOINTS
  {
    set e, t | e in scores && t in BarrierTriples(participantUri, e.0, e.1, domain, timepoint, date) :: t
  }

  /** The assessment's has-part edges to the barrier nodes of a score map. */
  function ScoreLinksTriples(assessment: string, participantUri: string, scores: seq<(string, int)>,
                             domain: string, timepoint: string): set<Triple>
  {
    set e | e in scores :: Triple(assessment, HasPart, Iri(BarrierUri(LastSegment(participantUri, '/'), domain, e.0, timepoint)))
  }

  /** The barrier nodes of a score map and the assessment's has-part edges to them. */
  function ScoresTriples(assessment: string, participantUri: string, scores: seq<(string, int)>,
                         domain: string, timepoint: string, date: string): set<Triple>
    requires KnownTypes(scores) && domain in DOMAINS && timepoint in TIMEPOINTS
  {
    ScoreNodesTriples(participantUri, scores, domain, timepoint, date)
      + ScoreLinksTriples(assessment, participantUri, scores, domain, timepoint)
  }

  /**
   * How many entries, from the front, the loop of `add_barrier_assessment` gets through: the
   * index of the first unknown barrier type, or the length of the map when all are known.
   */
  function KnownPrefix(scores: seq<(string, int)>): (k: nat)
    ensures k <= |scores| && KnownTypes(scores[..k])
    ensures k < |scores| ==> scores[k].0 !in BARRIER_TYPES
  {
    if |scores| == 0 || scores[0].0 !in BARRIER_TYPES then 0
    else
      var k := 1 + KnownPrefix(scores[1..]);
      assert scores[..k] == [scores[0]] + scores[1..][..k - 1];
      k
  }

  /** Everything `add_barrier_assessment` writes, up to the lookup that fails if one does. */
  function AssessmentWrites(participantId: string, domain: string, timepoint: string,
                            scores: seq<(string, int)>, date: string): set<Triple>
  {
    var head := AssessmentHeadTriples(participantId, domain, timepoint, date);
    if timepoint !in TIMEPOINTS then head
    else if domain !in DOMAINS then head + {TimepointTriple(participantId, domain, timepoint, date)}
    else
      AssessmentTriples(participantId, domain, timepoint, date)
        + ScoresTriples(AssessmentUri(participantId, domain, timepoint, date), ParticipantUri(participantId),
                        scores[..KnownPrefix(scores)], domain, timepoint, date)
  }

  /** What `add_barrier_assessment` returns or raises: the assessment IRI, or the first failed lookup. */
  function AssessmentResult(participantId: string, domain: string, timepoint: string,
                            scores: seq<(string, int)>, date: string): Result<string, AssessmentError>
  {
    if timepoint !in TIMEPOINTS then Failure(UnknownTimepoint(timepoint))
    else if domain !in DOMAINS then Failure(UnknownDomain(domain))
    else if KnownPrefix(scores) < |scores| then Failure(UnknownBarrierType(scores[KnownPrefix(scores)].0))
    else Success(AssessmentUri(participantId, domain, timepoint, date))
  }

  // ---------------------------------------------------------------------------------------
  // What a follow-up writes
  // ---------------------------------------------------------------------------------------

  /** The outcome class of a change score: reduction below zero, increase above, stable at zero. */
  function Outcome(change: int): string {
    if change < 0 then BARRIER_REDUCTION
    else if change > 0 then BARRIER_INCREASE
    else BARRIER_STABLE
  }

  /** The severity scores recorded on a node: its integer `has_severity_score` objects. */
  function SeverityScores(g: set<Triple>, node: string): (scores: set<int>)
    ensures forall v :: v in scores <==> Triple(node, HasSeverityScore, IntLit(v)) in g
  {
    set o | o in Objects(g, node, HasSeverityScore) && o.IntLit? :: o.value
  }

  /** `baseline` is a value `_get_barrier_score` may return for `node` in `g`. */
  predicate BaselineRead(g: set<Triple>, node: string, baseline: Option<int>) {
    (baseline.None? <==> SeverityScores(g, node) == {})
    && (baseline.Some? ==> baseline.value in SeverityScores(g, node))
  }

  /** The triples the follow-up loop writes for one scored type, given the baseline score it read. */
  function FollowUpEntryTriples(participantId: string, domain: string, timepoint: string,
                                entry: (string, int), baseline: Option<int>): set<Triple>
  {
    var f := BarrierUri(participantId, domain, entry.0, timepoint);
    {Triple(f, IsReassessmentOf, Iri(BarrierUri(participantId, domain, entry.0, "baseline")))}
      + (if baseline.Some? then
           var change := entry.1 - baseline.value;
           {Triple(f, HasChangeFromBaseline, IntLit(change)), Triple(f, RdfType, Iri(Outcome(change)))}
         else {})
  }

  /** The triples the follow-up loop writes for a score map, entry by entry, given the baselines it read. */
  function FollowUpTriples(participantId: string, domain: string, timepoint: string,
                           scores: seq<(string, int)>, baselines: seq<Option<int>>): set<Triple>
    requires |baselines| == |scores|
    decreases |scores|
  {
    if |scores| == 0 then {}
    else
      var n := |scores| - 1;
      FollowUpTriples(participantId, domain, timepoint, scores[..n], baselines[..n])
        + FollowUpEntryTriples(participantId, domain, timepoint, scores[n], baselines[n])
  }

  /** Each baseline is one the loop may have read from `g` for its entry's baseline node. */
  predicate BaselinesRead(g: set<Triple>, participantId: string, domain: string,
                          scores: seq<(string, int)>, baselines: seq<Option<int>>)
  {
    |baselines| == |scores|
    && forall i :: 0 <= i < |scores| ==>
         BaselineRead(g, BarrierUri(participantId, domain, scores[i].0, "baseline"), baselines[i])
  }

  /** Writing one more entry adds that entry's triples. */
  lemma FollowUpTriplesSnoc(participantId: string, domain: string, timepoint: string,
                            scores: seq<(string, int)>, baselines: seq<Option<int>>, b: Option<int>)
    requires |baselines| < |scores|
    ensures var i := |baselines|;
      FollowUpTriples(participantId, domain, timepoint, scores[..i + 1], baselines + [b])
        == FollowUpTriples(participantId, domain, timepoint, scores[..i], baselines)
          + FollowUpEntryTriples(participantId, domain, timepoint, scores[i], b)
  {
    var i := |baselines|;
    assert scores[..i + 1][..i] == scores[..i] && (baselines + [b])[..i] == baselines;
    assert scores[..i + 1][i] == scores[i] && (baselines + [b])[i] == b;
  }

  /** Reading one more baseline, in a graph whose scores are those of `g`, extends the reads. */
  lemma BaselinesReadSnoc(g: set<Triple>, current: set<Triple>, participantId: string, domain: string,
                          scores: seq<(string, int)>, baselines: seq<Option<int>>, b: Option<int>)
    requires |baselines| < |scores|
    requires BaselinesRead(g, participantId, domain, scores[..|baselines|], baselines)
    requires var u := BarrierUri(participantId, domain, scores[|baselines|].0, "baseline");
      BaselineRead(current, u, b) && SeverityScores(current, u) == SeverityScores(g, u)
    ensures BaselinesRead(g, participantId, domain, scores[..|baselines| + 1], baselines + [b])
  {
    var i := |baselines|;
    assert forall j :: 0 <= j < i ==> scores[..i + 1][j] == scores[..i][j] && (baselines + [b])[j] == baselines[j];
    assert scores[..i + 1][i] == scores[i] && (baselines + [b])[i] == b;
  }

  /** One iteration of the follow-up loop keeps its invariant: the reads so far, and the triples written so far. */
  lemma LinkStep(g0: set<Triple>, before: set<Triple>, after: set<Triple>, participantId: string, domain: string,
                 timepoint: string, scores: seq<(string, int)>, baselines: seq<Option<int>>, baseline: Option<int>)
    requires |baselines| < |scores|
    requires BaselinesRead(g0, participantId, domain, scores[..|baselines|], baselines)
    requires before == g0 + FollowUpTriples(participantId, domain, timepoint, scores[..|baselines|], baselines)
    requires BaselineRead(before, BarrierUri(participantId, domain, scores[|baselines|].0, "baseline"), baseline)
    requires after == before + FollowUpEntryTriples(participantId, domain, timepoint, scores[|baselines|], baseline)
    ensures BaselinesRead(g0, participantId, domain, scores[..|baselines| + 1], baselines + [baseline])
    ensures after == g0 + FollowUpTriples(participantId, domain, timepoint, scores[..|baselines| + 1], baselines + [baseline])
  {
    var i := |baselines|;
    var u := BarrierUri(participantId, domain, scores[i].0, "baseline");
    FollowUpKeepsScores(g0, participantId, domain, timepoint, scores[..i], baselines, u);
    BaselinesReadSnoc(g0, before, participantId, domain, scores, baselines, baseline);
    FollowUpTriplesSnoc(participantId, domain, timepoint, scores, baselines, baseline);
  }

  /** No follow-up triple records a severity score. */
  lemma FollowUpKeepsScores(g: set<Triple>, participantId: string, domain: string, timepoint: string,
                            scores: seq<(string, int)>, baselines: seq<Option<int>>, node: string)
    requires |baselines| == |scores|
    ensures SeverityScores(g + FollowUpTriples(participantId, domain, timepoint, scores, baselines), node)
      == SeverityScores(g, node)
  {
    var x := FollowUpTriples(participantId, domain, timepoint, scores, baselines);
    FollowUpWritesNoScore(participantId, domain, timepoint, scores, baselines);
    NoObjects(x, node, HasSeverityScore);
    ObjectsUnion(g, x, node, HasSeverityScore);
  }

  lemma {:induction false} FollowUpWritesNoScore(participantId: string, domain: string, timepoint: string,
                                                 scores: seq<(string, int)>, baselines: seq<Option<int>>)
    requires |baselines| == |scores|
    ensures forall t :: t in FollowUpTriples(participantId, domain, timepoint, scores, baselines) ==> t.p != HasSeverityScore
    decreases |scores|
  {
    if |scores| > 0 {
      var n := |scores| - 1;
      FollowUpWritesNoScore(participantId, domain, timepoint, scores[..n], baselines[..n]);
    }
  }

  // ---------------------------------------------------------------------------------------
  // The rows of `get_participant_barriers`
  // ---------------------------------------------------------------------------------------

  /** One solution of the barrier query; only integer scores and changes are read. */
  datatype Row = Row(barrier: string, name: Node, domain: Node, timepoint: Node, score: int, change: Option<int>)

  /** The query's filters: `CONTAINS` on the barrier IRI, and the optional domain and timepoint patterns. */
  predicate Selected(g: set<Triple>, barrier: string, participantId: string,
                     domainIri: Option<string>, timepointIri: Option<string>)
  {
    Contains(barrier, participantId)
    && (domainIri.Some? ==> Triple(barrier, ConcernsDomain, Iri(domainIri.value)) in g)
    && (timepointIri.Some? ==> Triple(barrier, AssessedAtTimepoint, Iri(timepointIri.value)) in g)
  }

  /**
   * `r` is a solution of the query: every pattern matches, and the `OPTIONAL` change is bound
   * to one of the barrier's changes, or left unbound when it has none.
   */
  predicate IsSolution(g: set<Triple>, participantId: string, domainIri: Option<string>,
                       timepointIri: Option<string>, r: Row)
  {
    Triple(r.barrier, HasSeverityScore, IntLit(r.score)) in g
    && Triple(r.barrier, RdfsLabel, r.name) in g
    && Triple(r.barrier, ConcernsDomain, r.domain) in g
    && Triple(r.barrier, AssessedAtTimepoint, r.timepoint) in g
    && (r.change.None? ==> Objects(g, r.barrier, HasChangeFromBaseline) == {})
    && (r.change.Some? ==> Triple(r.barrier, HasChangeFromBaseline, IntLit(r.change.value)) in g)
    && Selected(g, r.barrier, participantId, domainIri, timepointIri)
  }

  /** The values the `OPTIONAL` change takes for a barrier: each integer change, or unbound when it has none. */
  function ChangeBindings(g: set<Triple>, barrier: string): set<Option<int>> {
    var changes := Objects(g, barrier, HasChangeFromBaseline);
    if changes == {} then {None} else set o | o in changes && o.IntLit? :: Some(o.value)
  }

  /** The solutions for one scored barrier: every combination of its label, domain, timepoint and change. */
  function BarrierRows(g: set<Triple>, barrier: string, score: int): set<Row> {
    set l, d, t, c | l in Objects(g, barrier, RdfsLabel) && d in Objects(g, barrier, ConcernsDomain)
                     && t in Objects(g, barrier, AssessedAtTimepoint) && c in ChangeBindings(g, barrier)
                     :: Row(barrier, l, d, t, score, c)
  }

  /** The solutions of the query, built by joining the matching triples. */
  function Solutions(g: set<Triple>, participantId: string, domainIri: Option<string>,
                     timepointIri: Option<string>): set<Row>
  {
    set s, r | s in g && s.p == HasSeverityScore && s.o.IntLit?
               && Selected(g, s.s, participantId, domainIri, timepointIri)
               && r in BarrierRows(g, s.s, s.o.value) :: r
  }

  /** Python `str()` of an rdflib term: an IRI's text or a literal's lexical form. */
  function NodeText(n: Node): string {
    match n
    case Iri(i) => i
    case LangLit(text, _) => text
    case StrLit(text) => text
    case IntLit(v) => IntToDecimal(v)
    case BoolLit(b) => if b then "true" else "false"
    case DateTimeLit(text) => text
  }

  /** `ORDER BY ?domain ?timepoint`, on the terms' texts. */
  predicate RowLe(a: Row, b: Row) {
    var da, db := NodeText(a.domain), NodeText(b.domain);
    (da != db && StrLe(da, db)) || (da == db && StrLe(NodeText(a.timepoint), NodeText(b.timepoint)))
  }

  predicate SortedRows(rows: seq<Row>) {
    forall i, j :: 0 <= i < j < |rows| ==> RowLe(rows[i], rows[j])
  }

  /** `rows` lists every member of `s` exactly once. */
  ghost predicate Enumerates(rows: seq<Row>, s: set<Row>) {
    (forall r :: r in rows <==> r in s)
    && forall i, j :: 0 <= i < j < |rows| ==> rows[i] != rows[j]
  }

  lemma RowLeTotal(a: Row, b: Row)
    ensures RowLe(a, b) || RowLe(b, a)
  {
    StrLeTotal(NodeText(a.domain), NodeText(b.domain));
    StrLeTotal(NodeText(a.timepoint), NodeText(b.timepoint));
  }

  lemma RowLeTransitive(a: Row, b: Row, c: Row)
    requires RowLe(a, b) && RowLe(b, c)
    ensures RowLe(a, c)
  {
    var da, db, dc := NodeText(a.domain), NodeText(b.domain), NodeText(c.domain);
    if da != db && db != dc {
      StrLeTransitive(da, db, dc);
      if da == dc {
        StrLeAntisymmetric(da, db);
      }
    } else if da == db && db == dc {
      StrLeTransitive(NodeText(a.timepoint), NodeText(b.timepoint), NodeText(c.timepoint));
    }
  }

  /** A non-empty finite set of rows has a least row. */
  lemma {:induction false} LeastRowExists(s: set<Row>)
    requires s != {}
    ensures exists m :: m in s && forall x :: x in s ==> RowLe(m, x)
    decreases |s|
  {
    var y :| y in s;
    if s == {y} {
      RowLeTotal(y, y);
    } else {
      LeastRowExists(s - {y});
      var m :| m in s - {y} && forall x :: x in s - {y} ==> RowLe(m, x);
      RowLeTotal(m, y);
      if RowLe(y, m) {
        forall x | x in s
          ensures RowLe(y, x)
        {
          if x != y {
            RowLeTransitive(y, m, x);
          } else {
            RowLeTotal(y, y);
          }
        }
      }
    }
  }

  /**
   * The query engine's `ORDER BY`: the solutions in ascending (domain, timepoint) order,
   * rows that tie in any order.
   */
  method OrderRows(s: set<Row>) returns (rows: seq<Row>)
    ensures Enumerates(rows, s) && SortedRows(rows)
  {
    rows := [];
    var rest := s;
    while rest != {}
      invariant forall r :: r in s <==> r in rest || r in rows
      invariant forall r :: r in rows ==> r !in rest
      invariant forall i, j :: 0 <= i < j < |rows| ==> rows[i] != rows[j]
      invariant SortedRows(rows)
      invariant forall i, x :: 0 <= i < |rows| && x in rest ==> RowLe(rows[i], x)
      decreases |rest|
    {
      LeastRowExists(rest);
      var m :| m in rest && forall x :: x in rest ==> RowLe(m, x);
      rows := rows + [m];
      rest := rest - {m};
    }
  }

  /** One entry of the list `get_participant_barriers` returns. */
  datatype BarrierView = BarrierView(
    barrierUri: string,
    name: string,
    domain: string,
    timepoint: string,
    severityScore: int,
    changeFromBaseline: Option<int>)

  /**
   * The change the source reads with `int(row.change) if row.change else None`: an rdflib
   * integer literal is false when its value is 0, so a zero change reads as absent.
   */
  function ChangeAsWritten(change: Option<int>): (read: Option<int>)
    ensures read.Some? <==> change.Some? && change.value != 0
    ensures read.Some? ==> read == change
  {
    if change.Some? && change.value != 0 then change else None
  }

  /**
   * The entry made from a row: the domain is the text after the IRI's last `/`, the
   * timepoint the text after its last `:`, and the change is the one the row carries.
   */
  function ViewOf(r: Row): (v: BarrierView)
    ensures v.barrierUri == r.barrier && v.severityScore == r.score && v.changeFromBaseline == r.change
    ensures '/' !in v.domain && ':' !in v.timepoint
  {
    BarrierView(r.barrier, NodeText(r.name), LastSegment(NodeText(r.domain), '/'),
                LastSegment(NodeText(r.timepoint), ':'), r.score, r.change)
  }

  /**
   * The entry `get_participant_barriers` makes from a row: the entry of `ViewOf`, except that
   * the change is read through the literal's truth value, so a zero change is absent.
   */
  function ViewAsWritten(r: Row): (v: BarrierView)
    ensures v.(changeFromBaseline := r.change) == ViewOf(r)
    ensures v.changeFromBaseline.Some? <==> r.change.Some? && r.change.value != 0
    ensures v.changeFromBaseline.Some? ==> v.changeFromBaseline == r.change
  {
    ViewOf(r).(changeFromBaseline := ChangeAsWritten(r.change))
  }

  /** The loop of `get_participant_barriers`: one entry per row, in row order. */
  method ViewsOf(rows: seq<Row>) returns (views: seq<BarrierView>)
    ensures |views| == |rows| && forall i :: 0 <= i < |rows| ==> views[i] == ViewAsWritten(rows[i])
  {
    views := [];
    var i := 0;
    while i < |rows|
      invariant i <= |rows| && |views| == i
      invariant forall j :: 0 <= j < i ==> views[j] == ViewAsWritten(rows[j])
    {
      views := views + [ViewAsWritten(rows[i])];
      i := i + 1;
    }
  }

  /** The filter for an optional domain key ("" or absent: no filter). */
  function DomainFilter(domain: string): Option<string>
    requires domain == "" || domain in DOMAINS
  {
    if domain == "" then None else Some(DomainIri(domain))
  }

  function TimepointFilter(timepoint: string): Option<string>
    requires timepoint == "" || timepoint in TIMEPOINTS
  {
    if timepoint == "" then None else Some(TimepointIri(timepoint))
  }

  // ---------------------------------------------------------------------------------------
  // The graph
  // ---------------------------------------------------------------------------------------

  /** `BarrierAssessmentGraph`: the engine, owning one triple store. */
  class BarrierAssessmentGraph {
    const graph: Store

    /** A non-empty base store is used as is; an absent or empty one is replaced by a new store. */
    constructor (base: Option<Store>)
      ensures base.Some? && base.value.triples != {} ==> graph == base.value
      ensures !(base.Some? && base.value.triples != {}) ==> fresh(graph) && graph.triples == {}
    {
      if base.Some? && base.value.triples != {} {
        graph := base.value;
      } else {
        graph := new Store();
      }
    }

    /**
     * `add_barrier_assessment`, the assessment date passed in. Returns the assessment IRI, or
     * the failed lookup, in which case the triples written before it stay in the graph.
     */
    method AddBarrierAssessment(participantId: string, domain: string, timepoint: string,
                                scores: seq<(string, int)>, date: string)
      returns (r: Result<string, AssessmentError>)
      modifies graph
      ensures r == AssessmentResult(participantId, domain, timepoint, scores, date)
      ensures graph.triples == old(graph.triples) + AssessmentWrites(participantId, domain, timepoint, scores, date)
    {
      var a := AssessmentUri(participantId, domain, timepoint, date);
      var participantUri := ParticipantUri(participantId);
      graph.Add(Triple(a, RdfType, Iri(BCIO_ASSESSMENT)));
      graph.Add(Triple(a, RdfsLabel, LangLit("Barrier Assessment - " + domain, "en")));
      graph.Add(Triple(a, HasSpecifiedInput, Iri(participantUri)));
      graph.Add(Triple(a, HasTemporalValue, DateTimeLit(date)));
      if timepoint !in TIMEPOINTS {
        return Failure(UnknownTimepoint(timepoint));
      }
      graph.Add(Triple(a, AssessedAtTimepoint, Iri(TimepointIri(timepoint))));
      if domain !in DOMAINS {
        return Failure(UnknownDomain(domain));
      }
      graph.Add(Triple(a, ConcernsDomain, Iri(DomainIri(domain))));
      ghost var own := graph.triples;
      assert own == old(graph.triples) + AssessmentTriples(participantId, domain, timepoint, date);
      var k := AddBarrierScores(a, participantUri, scores, domain, timepoint, date);
      if k < |scores| {
        return Failure(UnknownBarrierType(scores[k].0));
      }
      r := Success(a);
    }

    /** The loop of `add_barrier_assessment`: one barrier node and has-part edge per entry, in order. */
    method AddBarrierScores(assessment: string, participantUri: string, scores: seq<(string, int)>,
                            domain: string, timepoint: string, date: string)
      returns (k: nat)
      requires domain in DOMAINS && timepoint in TIMEPOINTS
      modifies graph
      ensures k == KnownPrefix(scores)
      ensures graph.triples == old(graph.triples)
        + ScoresTriples(assessment, participantUri, scores[..k], domain, timepoint, date)
    {
      k := 0;
      while k < |scores|
        invariant k <= |scores| && KnownTypes(scores[..k])
        invariant graph.triples == old(graph.triples)
          + ScoresTriples(assessment, participantUri, scores[..k], domain, timepoint, date)
      {
        var b := CreateBarrierInstance(participantUri, scores[k].0, scores[k].1, domain, timepoint, date);
        if b.Failure? {
          KnownPrefixUnique(scores, k);
          return;
        }
        graph.Add(Triple(assessment, HasPart, Iri(b.value)));
        ScoresStep(old(graph.triples), graph.triples, assessment, participantUri, scores, k, domain, timepoint, date);
        k := k + 1;
      }
      KnownPrefixUnique(scores, k);
    }

    /**
     * `_create_barrier_instance`: an unknown barrier type raises before anything is written.
     * Its caller has already looked the domain and timepoint up.
     */
    method CreateBarrierInstance(participantUri: string, barrierType: string, score: int,
                                 domain: string, timepoint: string, date: string)
      returns (r: Result<string, AssessmentError>)
      requires domain in DOMAINS && timepoint in TIMEPOINTS
      modifies graph
      ensures barrierType !in BARRIER_TYPES ==>
        r == Failure(UnknownBarrierType(barrierType)) && graph.triples == old(graph.triples)
      ensures barrierType in BARRIER_TYPES ==>
        r == Success(BarrierUri(LastSegment(participantUri, '/'), domain, barrierType, timepoint))
        && graph.triples == old(graph.triples) + BarrierTriples(participantUri, barrierType, score, domain, timepoint, date)
    {
      if barrierType !in BARRIER_TYPES {
        return Failure(UnknownBarrierType(barrierType));
      }
      var b := BarrierUri(LastSegment(participantUri, '/'), domain, barrierType, timepoint);
      WriteBarrierNode(b, BARRIER_TYPES[barrierType], participantUri, DomainIri(domain), TimepointIri(timepoint),
                       score, date);
      r := Success(b);
    }

    /** The nine `add` calls of `_create_barrier_instance`, in order. */
    method WriteBarrierNode(b: string, info: BarrierInfo, participantUri: string, domainIri: string,
                            timepointIri: string, score: int, date: string)
      modifies graph
      ensures graph.triples == old(graph.triples)
        + BarrierNodeTriples(b, info, participantUri, domainIri, timepointIri, score, date)
    {
      graph.Add(Triple(b, RdfType, Iri(BARRIER_NS + info.cls)));
      graph.Add(Triple(b, RdfType, Iri(BFO_QUALITY)));
      graph.Add(Triple(b, RdfsLabel, LangLit(info.name, "en")));
      graph.Add(Triple(b, InheresIn, Iri(participantUri)));
      graph.Add(Triple(b, ConcernsDomain, Iri(domainIri)));
      graph.Add(Triple(b, AssessedAtTimepoint, Iri(timepointIri)));
      graph.Add(Triple(b, HasSeverityScore, IntLit(score)));
      graph.Add(Triple(b, HasAssessmentDate, DateTimeLit(date)));
      graph.Add(Triple(b, AddressableByMechanism, Iri(MechanismIriAsWritten(info.mechanism))));
    }

    /**
     * `add_follow_up_assessment`: the assessment itself, then for every scored type an
     * `is_reassessment_of` edge to the recomputed baseline IRI and, when that node has a
     * score, the change and its outcome class. `baselines` are the scores the loop read.
     */
    method AddFollowUpAssessment(participantId: string, domain: string, timepoint: string,
                                 scores: seq<(string, int)>, date: string)
      returns (r: Result<string, AssessmentError>, ghost baselines: seq<Option<int>>)
      modifies graph
      ensures r == AssessmentResult(participantId, domain, timepoint, scores, date)
      ensures r.Failure? ==>
        graph.triples == old(graph.triples) + AssessmentWrites(participantId, domain, timepoint, scores, date)
      ensures r.Success? ==>
        var assessed := old(graph.triples) + AssessmentWrites(participantId, domain, timepoint, scores, date);
        BaselinesRead(assessed, participantId, domain, scores, baselines)
        && graph.triples == assessed + FollowUpTriples(participantId, domain, timepoint, scores, baselines)
    {
      r := AddBarrierAssessment(participantId, domain, timepoint, scores, date);
      baselines := [];
      if r.Failure? {
        return;
      }
      baselines := LinkFollowUps(participantId, domain, timepoint, scores);
    }

    /** The loop of `add_follow_up_assessment` over the score map. */
    method LinkFollowUps(participantId: string, domain: string, timepoint: string, scores: seq<(string, int)>)
      returns (ghost baselines: seq<Option<int>>)
      modifies graph
      ensures BaselinesRead(old(graph.triples), participantId, domain, scores, baselines)
      ensures graph.triples == old(graph.triples) + FollowUpTriples(participantId, domain, timepoint, scores, baselines)
    {
      ghost var g0 := graph.triples;
      baselines := [];
      var i := 0;
      while i < |scores|
        invariant i <= |scores| && |baselines| == i
        invariant BaselinesRead(g0, participantId, domain, scores[..i], baselines)
        invariant graph.triples == g0 + FollowUpTriples(participantId, domain, timepoint, scores[..i], baselines)
      {
        ghost var before := graph.triples;
        ghost var baseline := LinkFollowUp(participantId, domain, timepoint, scores[i]);
        LinkStep(g0, before, graph.triples, participantId, domain, timepoint, scores, baselines, baseline);
        baselines := baselines + [baseline];
        i := i + 1;
      }
      assert scores[..i] == scores;
    }

    /** One iteration of that loop: the reassessment edge, then the change and outcome when a baseline score exists. */
    method LinkFollowUp(participantId: string, domain: string, timepoint: string, entry: (string, int))
      returns (ghost baseline: Option<int>)
      modifies graph
      ensures BaselineRead(old(graph.triples), BarrierUri(participantId, domain, entry.0, "baseline"), baseline)
      ensures graph.triples == old(graph.triples) + FollowUpEntryTriples(participantId, domain, timepoint, entry, baseline)
    {
      var followUp := BarrierUri(participantId, domain, entry.0, timepoint);
      var baselineUri := BarrierUri(participantId, domain, entry.0, "baseline");
      ghost var before := graph.triples;
      graph.Add(Triple(followUp, IsReassessmentOf, Iri(baselineUri)));
      ObjectsUnion(before, {Triple(followUp, IsReassessmentOf, Iri(baselineUri))}, baselineUri, HasSeverityScore);
      var score := GetBarrierScore(baselineUri);
      if score.Some? {
        var change := entry.1 - score.value;
        graph.Add(Triple(followUp, HasChangeFromBaseline, IntLit(change)));
        graph.Add(Triple(followUp, RdfType, Iri(Outcome(change))));
      }
      baseline := score;
    }

    /** `_get_barrier_score`: some integer score of the node (the query's first), or `None`. */
    method GetBarrierScore(node: string) returns (score: Option<int>)
      ensures BaselineRead(graph.triples, node, score)
    {
      var recorded := SeverityScores(graph.triples, node);
      if recorded == {} {
        return None;
      }
      var v :| v in recorded;
      score := Some(v);
    }

    /**
     * `get_participant_barriers`: an unknown domain or timepoint key raises; otherwise every
     * solution of the query, in `ORDER BY` order (`rows`), as entries whose zero changes
     * read as absent.
     */
    method GetParticipantBarriers(participantId: string, domain: string, timepoint: string)
      returns (r: Result<seq<BarrierView>, AssessmentError>, ghost rows: seq<Row>)
      ensures domain != "" && domain !in DOMAINS ==> r == Failure(UnknownDomain(domain))
      ensures (domain == "" || domain in DOMAINS) && timepoint != "" && timepoint !in TIMEPOINTS ==>
        r == Failure(UnknownTimepoint(timepoint))
      ensures (domain == "" || domain in DOMAINS) && (timepoint == "" || timepoint in TIMEPOINTS) ==>
        r.Success?
        && Enumerates(rows, Solutions(graph.triples, participantId, DomainFilter(domain), TimepointFilter(timepoint)))
        && SortedRows(rows)
        && |r.value| == |rows|
        && forall i :: 0 <= i < |rows| ==> r.value[i] == ViewAsWritten(rows[i])
    {
      rows := [];
      if domain != "" && domain !in DOMAINS {
        return Failure(UnknownDomain(domain)), rows;
      }
      if timepoint != "" && timepoint !in TIMEPOINTS {
        return Failure(UnknownTimepoint(timepoint)), rows;
      }
      var solutions := Solutions(graph.triples, participantId, DomainFilter(domain), TimepointFilter(timepoint));
      var ordered := OrderRows(solutions);
      rows := ordered;
      var results := ViewsOf(ordered);
      r := Success(results);
    }
  }

  // ---------------------------------------------------------------------------------------
  // Loop lemmas
  // ---------------------------------------------------------------------------------------

  /** Writing one more known entry adds its barrier node and has-part edge. */
  /** One turn of the loop of `add_barrier_assessment`: the written triples grow by one entry. */
  lemma ScoresStep(before: set<Triple>, after: set<Triple>, assessment: string, participantUri: string,
                   scores: seq<(string, int)>, k: nat, domain: string, timepoint: string, date: string)
    requires k < |scores| && KnownTypes(scores[..k]) && scores[k].0 in BARRIER_TYPES
    requires domain in DOMAINS && timepoint in TIMEPOINTS
    requires after == before + ScoresTriples(assessment, participantUri, scores[..k], domain, timepoint, date)
      + BarrierTriples(participantUri, scores[k].0, scores[k].1, domain, timepoint, date)
      + {Triple(assessment, HasPart, Iri(BarrierUri(LastSegment(participantUri, '/'), domain, scores[k].0, timepoint)))}
    ensures KnownTypes(scores[..k + 1])
    ensures after == before + ScoresTriples(assessment, participantUri, scores[..k + 1], domain, timepoint, date)
  {
    KnownTypesSnoc(scores, k);
    ScoresTriplesSnoc(assessment, participantUri, scores, k, domain, timepoint, date);
    UnionRegroup(before, ScoresTriples(assessment, participantUri, scores[..k], domain, timepoint, date),
                 BarrierTriples(participantUri, scores[k].0, scores[k].1, domain, timepoint, date),
                 {Triple(assessment, HasPart, Iri(BarrierUri(LastSegment(participantUri, '/'), domain, scores[k].0, timepoint)))});
  }

  lemma KnownTypesSnoc(scores: seq<(string, int)>, k: nat)
    requires k < |scores| && KnownTypes(scores[..k]) && scores[k].0 in BARRIER_TYPES
    ensures KnownTypes(scores[..k + 1])
  {
    assert scores[..k + 1] == scores[..k] + [scores[k]];
  }

  lemma UnionRegroup<T>(g: set<T>, a: set<T>, b: set<T>, c: set<T>)
    ensures g + a + b + c == g + (a + b + c)
  {
  }

  lemma ScoresTriplesSnoc(assessment: string, participantUri: string, scores: seq<(string, int)>, k: nat,
                          domain: string, timepoint: string, date: string)
    requires k < |scores| && KnownTypes(scores[..k + 1]) && domain in DOMAINS && timepoint in TIMEPOINTS
    ensures KnownTypes(scores[..k]) && scores[k].0 in BARRIER_TYPES
    ensures ScoresTriples(assessment, participantUri, scores[..k + 1], domain, timepoint, date)
      == ScoresTriples(assessment, participantUri, scores[..k], domain, timepoint, date)
        + BarrierTriples(participantUri, scores[k].0, scores[k].1, domain, timepoint, date)
        + {Triple(assessment, HasPart, Iri(BarrierUri(LastSegment(participantUri, '/'), domain, scores[k].0, timepoint)))}
  {
    assert scores[k] in scores[..k + 1];
    assert forall e :: e in scores[..k] ==> e in scores[..k + 1];
    ScoreNodesSnoc(participantUri, scores, k, domain, timepoint, date);
    ScoreLinksSnoc(assessment, participantUri, scores, k, domain, timepoint);
  }

  lemma ScoreNodesSnoc(participantUri: string, scores: seq<(string, int)>, k: nat,
                       domain: string, timepoint: string, date: string)
    requires k < |scores| && KnownTypes(scores[..k + 1]) && KnownTypes(scores[..k])
    requires scores[k].0 in BARRIER_TYPES && domain in DOMAINS && timepoint in TIMEPOINTS
    ensures ScoreNodesTriples(participantUri, scores[..k + 1], domain, timepoint, date)
      == ScoreNodesTriples(participantUri, scores[..k], domain, timepoint, date)
        + BarrierTriples(participantUri, scores[k].0, scores[k].1, domain, timepoint, date)
  {
    assert forall e :: e in scores[..k + 1] <==> e in scores[..k] || e == scores[k];
  }

  lemma ScoreLinksSnoc(assessment: string, participantUri: string, scores: seq<(string, int)>, k: nat,
                       domain: string, timepoint: string)
    requires k < |scores|
    ensures ScoreLinksTriples(assessment, participantUri, scores[..k + 1], domain, timepoint)
      == ScoreLinksTriples(assessment, participantUri, scores[..k], domain, timepoint)
        + {Triple(assessment, HasPart, Iri(BarrierUri(LastSegment(participantUri, '/'), domain, scores[k].0, timepoint)))}
  {
    assert forall e :: e in scores[..k + 1] <==> e in scores[..k] || e == scores[k];
  }

  /** The loop stops exactly where `KnownPrefix` says. */
  lemma {:induction false} KnownPrefixUnique(scores: seq<(string, int)>, k: nat)
    requires k <= |scores| && KnownTypes(scores[..k])
    requires k < |scores| ==> scores[k].0 !in BARRIER_TYPES
    ensures KnownPrefix(scores) == k
  {
    if k > 0 {
      assert scores[0] in scores[..k];
      assert scores[1..][..k - 1] == scores[..k][1..];
      KnownPrefixUnique(scores[1..], k - 1);
    }
  }
}
