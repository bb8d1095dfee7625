/**
 * The RDF data model shared by the intervention system: IRIs as strings, the literal kinds
 * the system writes, triples, and a mutable triple store (an rdflib `Graph`) whose `add`
 * is set insertion. Every vocabulary IRI is spelled out in full.
 */
module Rdf {
  import opened Strings

  /** An RDF object: an IRI or one of the typed literals the system writes. */
  datatype Node =
    | Iri(iri: string)
    | LangLit(text: string, lang: string)   // plain literal with a language tag
    | StrLit(text: string)                  // xsd:string
    | IntLit(value: int)                    // xsd:integer
    | BoolLit(flag: bool)                   // xsd:boolean
    | DateTimeLit(text: string)             // xsd:dateTime, kept in its lexical form

  datatype Triple = Triple(s: string, p: Predicate, o: Node)

  /**
   * The predicates the system writes and queries. Every predicate is a fixed vocabulary
   * term, never computed, so the model names them; `PredicateIri` gives each one's IRI.
   */
  datatype Predicate =
    | RdfType
    | RdfsLabel
    | RdfsComment
    | PartOf
    | HasPart
    | InheresIn
    | Realizes
    | MeasurementValue
    | MeasurementUnit
    | AlternativeTerm
    | ParticipantIdentifier
    | CreatedDate
    | HasTemporalValue
    | HasSpecifiedInput
    | HasSpecifiedAgent
    | HasQualityValue
    | AutoTagged
    | AttributeCategory
    | AssessedAtTimepoint
    | ConcernsDomain
    | HasSeverityScore
    | HasAssessmentDate
    | AddressableByMechanism
    | IsReassessmentOf
    | HasChangeFromBaseline

  function PredicateIri(p: Predicate): string {
    match p
    case RdfType => "http://www.w3.org/1999/02/22-rdf-syntax-ns#type"
    case RdfsLabel => "http://www.w3.org/2000/01/rdf-schema#label"
    case RdfsComment => "http://www.w3.org/2000/01/rdf-schema#comment"
    case PartOf => "http://purl.obolibrary.org/obo/BFO_0000050"
    case HasPart => "http://purl.obolibrary.org/obo/BFO_0000051"
    case InheresIn => "http://purl.obolibrary.org/obo/BFO_0000052"
    case Realizes => "http://purl.obolibrary.org/obo/BFO_0000055"
    case MeasurementValue => "http://purl.obolibrary.org/obo/IAO_0000004"
    case MeasurementUnit => "http://purl.obolibrary.org/obo/IAO_0000039"
    case AlternativeTerm => "http://purl.obolibrary.org/obo/IAO_0000118"
    case ParticipantIdentifier => "http://purl.obolibrary.org/obo/IAO_0000578"
    case CreatedDate => "http://purl.obolibrary.org/obo/IAO_0000579"
    case HasTemporalValue => "http://purl.obolibrary.org/obo/BCIO_has_temporal_value"
    case HasSpecifiedInput => "http://purl.obolibrary.org/obo/BCIO_has_specified_input"
    case HasSpecifiedAgent => "http://purl.obolibrary.org/obo/BCIO_has_specified_agent"
    case HasQualityValue => "http://purl.obolibrary.org/obo/BCIO_has_quality_value"
    case AutoTagged => "http://purl.obolibrary.org/obo/BCIO_auto_tagged"
    case AttributeCategory => "http://purl.obolibrary.org/obo/BCIO_attribute_category"
    case AssessedAtTimepoint => "http://purl.obolibrary.org/obo/BCIO_assessed_at_timepoint"
    case ConcernsDomain => "http://purl.obolibrary.org/obo/BCIO_concerns_domain"
    case HasSeverityScore => "http://purl.obolibrary.org/obo/BCIO_has_severity_score"
    case HasAssessmentDate => "http://purl.obolibrary.org/obo/BCIO_has_assessment_date"
    case AddressableByMechanism => "http://purl.obolibrary.org/obo/BCIO_addressable_by_mechanism"
    case IsReassessmentOf => "http://purl.obolibrary.org/obo/BCIO_is_reassessment_of"
    case HasChangeFromBaseline => "http://purl.obolibrary.org/obo/BCIO_has_change_from_baseline"
  }

  /** An rdflib `Graph`: a finite set of triples, changed only by `Add`. */
  class Store {
    var triples: set<Triple>

    constructor ()
      ensures triples == {}
    {
      triples := {};
    }

    method Add(t: Triple)
      modifies this
      ensures triples == old(triples) + {t}
    {
      triples := triples + {t};
    }
  }

  /** rdflib's `Graph.objects(s, p)`: the objects of the triples with subject `s` and predicate `p`. */
  function Objects(g: set<Triple>, s: string, p: Predicate): (objs: set<Node>)
    ensures forall o :: o in objs <==> Triple(s, p, o) in g
  {
    set t | t in g && t.s == s && t.p == p :: t.o
  }

  /** rdflib's `Graph.subject_objects(p)`: the subject and object of each triple with predicate `p`. */
  function Edges(g: set<Triple>, p: Predicate): (pairs: set<(string, Node)>)
    ensures forall x, o :: (x, o) in pairs <==> Triple(x, p, o) in g
  {
    set t | t in g && t.p == p :: (t.s, t.o)
  }

  /** rdflib's `Graph.subjects(p, o)`: the subjects of the triples with predicate `p` and object `o`. */
  function Subjects(g: set<Triple>, p: Predicate, o: Node): (subs: set<string>)
    ensures forall x :: x in subs <==> Triple(x, p, o) in g
  {
    set t | t in g && t.p == p && t.o == o :: t.s
  }

  /** The objects in a union of graphs are those found in either graph. */
  lemma ObjectsUnion(a: set<Triple>, b: set<Triple>, s: string, p: Predicate)
    ensures Objects(a + b, s, p) == Objects(a, s, p) + Objects(b, s, p)
  {
  }

  /** The edges in a union of graphs are those found in either graph. */
  lemma EdgesUnion(a: set<Triple>, b: set<Triple>, p: Predicate)
    ensures Edges(a + b, p) == Edges(a, p) + Edges(b, p)
  {
  }

  /** The subjects in a union of graphs are those found in either graph. */
  lemma SubjectsUnion(a: set<Triple>, b: set<Triple>, p: Predicate, o: Node)
    ensures Subjects(a + b, p, o) == Subjects(a, p, o) + Subjects(b, p, o)
  {
  }

  /** A graph with no triple of subject `s` and predicate `p` has no objects for them. */
  lemma NoObjects(g: set<Triple>, s: string, p: Predicate)
    requires forall t :: t in g ==> t.s != s || t.p != p
    ensures Objects(g, s, p) == {}
  {
  }

  /** A graph with no triple of predicate `p` has no edges for it. */
  lemma NoEdges(g: set<Triple>, p: Predicate)
    requires forall t :: t in g ==> t.p != p
    ensures Edges(g, p) == {}
  {
  }

  /** A graph with no triple of predicate `p` and object `o` has no subjects for them. */
  lemma NoSubjects(g: set<Triple>, p: Predicate, o: Node)
    requires forall x :: Triple(x, p, o) !in g
    ensures Subjects(g, p, o) == {}
  {
  }

  // Namespaces
  const BCIO_NS := "http://purl.obolibrary.org/obo/BCIO_"
  const BFO_NS := "http://purl.obolibrary.org/obo/BFO_"
  const INTERVENTION_NS := "http://interventions.org/"
  const BARRIER_NS := "http://interventions.org/barrier/"

  // BFO
  const BFO_PROCESS := "http://purl.obolibrary.org/obo/BFO_0000015"
  const BFO_QUALITY := "http://purl.obolibrary.org/obo/BFO_0000020"
  const BFO_MATERIAL_ENTITY := "http://purl.obolibrary.org/obo/BFO_0000040"

  // PATO
  const PATO_QUALITY := "http://purl.obolibrary.org/obo/PATO_0000001"
  const PATO_AGE := "http://purl.obolibrary.org/obo/PATO_0000011"
  const PATO_DURATION := "http://purl.obolibrary.org/obo/PATO_0001309"

  // BCIO classes (the encounter class has six digits, the assessment class seven)
  const BCIO_ENCOUNTER := "http://purl.obolibrary.org/obo/BCIO_000001"
  const BCIO_ASSESSMENT := "http://purl.obolibrary.org/obo/BCIO_0000001"
  const BCIO_INTERVENTION_RECIPIENT := "http://purl.obolibrary.org/obo/BCIO_intervention_recipient"
  const BCIO_FIDELITY_QUALITY := "http://purl.obolibrary.org/obo/BCIO_fidelity_quality"
  const BCIO_MODE_OF_DELIVERY := "http://purl.obolibrary.org/obo/BCIO_mode_of_delivery"
  const BCIO_MINUTES := "http://purl.obolibrary.org/obo/BCIO_minutes"
  const BCIO_YEARS := "http://purl.obolibrary.org/obo/BCIO_years"
  const BCIO_UNKNOWN := "http://purl.obolibrary.org/obo/BCIO_unknown"

  // Outcome classes of a follow-up barrier
  const BARRIER_REDUCTION := "http://interventions.org/barrier/Barrier_Reduction"
  const BARRIER_INCREASE := "http://interventions.org/barrier/Barrier_Increase"
  const BARRIER_STABLE := "http://interventions.org/barrier/Barrier_Stable"

  /** Two IRIs built from different same-length prefixes are different, whatever follows. */
  lemma PrefixesDiffer(a: string, b: string, s: string, t: string)
    requires |a| == |b| && a != b
    ensures a + s != b + t
  {
    assert (a + s)[..|a|] == a;
    assert (b + t)[..|b|] == b;
  }

  /** Appending different suffixes of equal length to a common stem gives different IRIs. */
  lemma SuffixesDiffer(stem: string, a: string, b: string)
    requires |a| == |b| && a != b
    ensures stem + a != stem + b
  {
    assert (stem + a)[|stem|..] == a;
    assert (stem + b)[|stem|..] == b;
  }

  /** Suffixes of different lengths on a common stem give different IRIs. */
  lemma SuffixLengthsDiffer(stem: string, a: string, b: string)
    requires |a| != |b|
    ensures stem + a != stem + b
  {
  }
}
