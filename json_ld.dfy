/**
 * `JSONLDConverter.add_context`: wraps a record with the JSON-LD context for its kind, so
 * that its keys read as BCIO terms.
 */
module JsonLd {
  import opened Rdf

  /** A JSON value. */
  datatype Json =
    | JStr(str: string)
    | JInt(n: int)
    | JBool(b: bool)
    | JNull
    | JArray(items: seq<Json>)
    | JObject(fields: map<string, Json>)

  /**
   * The context for a record kind: `"encounter"` and `"participant"` get their own term
   * maps; any other kind only sets the default vocabulary to the BCIO namespace.
   */
  function Context(dataType: string): (ctx: map<string, Json>)
    ensures "@vocab" in ctx && ctx["@vocab"] == JStr(BCIO_NS)
    ensures dataType != "encounter" && dataType != "participant" ==> ctx.Keys == {"@vocab"}
  {
    if dataType == "encounter" then
      map[
        "@vocab" := JStr("http://purl.obolibrary.org/obo/BCIO_"),
        "bcio" := JStr("http://purl.obolibrary.org/obo/BCIO_"),
        "bfo" := JStr("http://purl.obolibrary.org/obo/BFO_"),
        "pato" := JStr("http://purl.obolibrary.org/obo/PATO_"),
        "encounter_uri" := JStr("@id"),
        "bct_instance_uri" := JStr("@id"),
        "delivered_to_uri" := JObject(map["@id" := JStr("bcio:has_specified_input"), "@type" := JStr("@id")]),
        "timestamp" := JObject(map["@type" := JStr("xsd:dateTime")])]
    else if dataType == "participant" then
      map[
        "@vocab" := JStr("http://purl.obolibrary.org/obo/BCIO_"),
        "bcio" := JStr("http://purl.obolibrary.org/obo/BCIO_"),
        "bfo" := JStr("http://purl.obolibrary.org/obo/BFO_"),
        "participant_uri" := JStr("@id"),
        "age" := JObject(map["@type" := JStr("xsd:integer")]),
        "created_date" := JObject(map["@type" := JStr("xsd:dateTime")])]
    else
      map["@vocab" := JStr("http://purl.obolibrary.org/obo/BCIO_")]
  }

  /**
   * `add_context`: `{"@context": context, **data}`. Every key of the record is kept with its
   * value (a record's own `"@context"` wins, as the later entry of the dict display); the
   * context is added under `"@context"` otherwise, and nothing else is added.
   */
  function AddContext(data: map<string, Json>, dataType: string): (r: map<string, Json>)
    ensures r.Keys == data.Keys + {"@context"}
    ensures forall k :: k in data ==> r[k] == data[k]
    ensures "@context" !in data ==> r["@context"] == JObject(Context(dataType))
  {
    map["@context" := JObject(Context(dataType))] + data
  }

  /**
   * In the encounter context the record's `delivered_to_uri` is an IRI-valued term whose
   * compact IRI `bcio:has_specified_input`, expanded with the context's own `bcio` prefix,
   * is the predicate `add_encounter_instance` writes for that field.
   */
  lemma EncounterContextMatchesGraph()
    ensures var ctx := Context("encounter");
      "bcio" in ctx && ctx["bcio"] == JStr(BCIO_NS) &&
      "delivered_to_uri" in ctx && ctx["delivered_to_uri"].JObject? &&
      "@id" in ctx["delivered_to_uri"].fields &&
      ctx["delivered_to_uri"].fields["@id"] == JStr("bcio:" + "has_specified_input") &&
      BCIO_NS + "has_specified_input" == PredicateIri(HasSpecifiedInput)
  {
    var ctx := Context("encounter");
    assert ctx["delivered_to_uri"] == JObject(map["@id" := JStr("bcio:has_specified_input"), "@type" := JStr("@id")]);
    CompactBcioInput();
    BcioInputIri();
  }

  lemma CompactBcioInput()
    ensures "bcio:has_specified_input" == "bcio:" + "has_specified_input"
  {
  }

  lemma BcioInputIri()
    ensures BCIO_NS + "has_specified_input" == PredicateIri(HasSpecifiedInput)
  {
  }

  /** The participant context gives `participant_uri` as the node id and `age` as an integer. */
  lemma ParticipantContextTerms()
    ensures var ctx := Context("participant");
      "participant_uri" in ctx && ctx["participant_uri"] == JStr("@id") &&
      "age" in ctx && ctx["age"] == JObject(map["@type" := JStr("xsd:integer")]) &&
      "encounter_uri" !in ctx
  {
  }
}
