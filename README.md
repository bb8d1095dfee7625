# Intervention-system core in Dafny

This project models the core of the intervention system: a small service for a prisoner-reentry
programme. Its data lives in an RDF graph typed by the Behaviour Change Intervention Ontology
(BCIO).

- **Graph builders** (`ontology_core.py`). `BCIOGraph` writes participants, encounters, the
  behaviour-change techniques (BCTs) delivered in an encounter, and their quality nodes.
  - Two rewriters normalise prefixed class ids.
  - `add_context` wraps a record as JSON-LD.
  - `validate_against_bcio` reports encounters that have no participant.
- **Barrier-assessment engine** (`barrier_assessment.py`). It writes one barrier node per
  (participant, domain, barrier type, timepoint).
  - A follow-up links to the baseline node and records the change score and its outcome class.
  - `get_participant_barriers` reads barriers back.
- **Analytics** (`barrier_assessment_app.py` and the copies in `app.py` and `app_enhanced.py`).
  - Per-participant progress statistics, and grouping for display.
  - Service-wide average change, the targeted/non-targeted comparison, the distribution of
    change scores, and the count of assessments.
- **Encounter auto-tagging.**
  - `auto_tag_encounter` in `app_enhanced.py` and `encounter_app.py`: the ordered list of BCT
    instances for an encounter, with slots 1..n and an added referral technique (BCT 12.5).
  - The inline loop of `submit_encounter` in `app.py`.
- **Intake** (`participant_intake_app.py` and the apps).
  - Participant ids `P001`, `P002`, …, and participant URIs.
  - `calculate_age` and the demographic tagging rules of `generate_bcio_attributes`.

How each part is modelled:

- **The graph** is a set of triples (`Rdf`). Predicates form a datatype; subjects are IRIs; objects
  are IRIs or typed literals. rdflib's `objects`, `subjects` and `subject_objects` are the
  functions `Objects`, `Subjects` and `Edges`.
- **The builders** are methods of two classes, `OntologyCore.BcioGraph` and
  `Barriers.BarrierAssessmentGraph`. Each holds a `Rdf.Store` whose `triples` its methods extend.
  - Each method is proved to add exactly a set of triples that a function describes.
  - What the source promises about those writes is proved as lemmas over those functions, in
    `OntologyFacts`, `BarrierFacts` and `Validation`.
- **Each SPARQL query** the code issues is a set of solutions defined over the triples
  (`Barriers.Solutions`, `ServiceAnalytics.ChangeSolutions`, …).
  - The engine's answer is a parameter: a sequence that lists that set.
  - Aggregates (`AVG`, `COUNT`, `ORDER BY`) are proved not to depend on the order of the listing.
- **Tagging and intake rules** are loops, so they are methods. Each is proved equal to a function,
  and the rules' promises are lemmas about those functions.
- **Python built-ins** used by the core are functions in `Strings`, each with its defining
  property: `str.replace`, `str.split(...)[-1]`, `str.zfill`, `str(n)`, `int(s)` and
  `s.startswith`.

## Model

| member | source | states |
|---|---|---|
| `Rdf.Store.Add` | intervention-system/ontology_core.py:103 | `graph.add` inserts one triple into the set and changes nothing else |
| `OntologyCore.BcioGraph.constructor` | intervention-system/ontology_core.py:16-18 | a new graph holds no triples |
| `OntologyCore.BcioGraph.CreateModeOfDeliveryQuality` | intervention-system/ontology_core.py:117-127 | adds exactly the mode node `{encounter}/mode_quality`: its type, its inherence in the encounter and the mode as a string; returns that node |
| `OntologyCore.BcioGraph.CreateDurationQuality` | intervention-system/ontology_core.py:129-141 | adds the duration node `{encounter}/duration_quality` with its type and inherence. When `int()` accepts the minutes text it also adds their integer value and the minutes unit. Otherwise it returns the error after only the first two writes |
| `OntologyCore.BcioGraph.CreateFidelityQuality` | intervention-system/ontology_core.py:99-115 | adds exactly the fidelity node `{bct}/fidelity_quality`: the PATO and fidelity types, inherence in the BCT, the fidelity value and the class parsed from its quality type |
| `OntologyCore.BcioGraph.AddBctInstance` | intervention-system/ontology_core.py:69-97 | adds exactly the BCT record's node and fidelity triples. The comment appears only for non-empty notes, `auto_tagged` defaults to false, and there is a part-of edge to the encounter |
| `OntologyCore.BcioGraph.AddEncounterHead` | intervention-system/ontology_core.py:34-41 | adds the encounter's two types, its timestamp and its `has_specified_input` edge to `delivered_to_uri` |
| `OntologyCore.BcioGraph.AddEncounterLinks` | intervention-system/ontology_core.py:53-57 | adds the protocol and practitioner links |
| `OntologyCore.BcioGraph.AddEncounterComment` | intervention-system/ontology_core.py:63-65 | adds an English comment exactly when the notes are non-empty |
| `OntologyCore.BcioGraph.AddBctInstances` | intervention-system/ontology_core.py:59-61 | for each BCT record in order, adds its triples and the encounter's has-part edge to it |
| `OntologyCore.BcioGraph.AddEncounterInstance` | intervention-system/ontology_core.py:31-67 | the graph grows by exactly the encounter's triples and the encounter URI is returned. If the minutes are not an integer, the error is returned and the graph keeps the writes made before the failing `int()` |
| `OntologyCore.BcioGraph.CreateAgeAttribute` | intervention-system/ontology_core.py:165-176 | adds exactly the age node `{participant}/age_attribute`: its type, its inherence, the age as an integer and the years unit |
| `OntologyCore.BcioGraph.CreatePopulationAttribute` | intervention-system/ontology_core.py:178-195 | adds exactly the attribute node of one tag: the parsed class, the BFO type, inherence, the label with spaces and the category |
| `OntologyCore.BcioGraph.AddPopulationAttributes` | intervention-system/ontology_core.py:154-158 | adds every tag's attribute triples, in order |
| `OntologyCore.BcioGraph.AddParticipantInstance` | intervention-system/ontology_core.py:143-163 | adds exactly the participant's triples: types, identifier, age node, one attribute node per tag, and the creation date |
| `OntologyFacts.EncounterTypes` | intervention-system/ontology_core.py:34-35 | an encounter node gets exactly the types `BCIO_000001` and `BFO_0000015` (when no BCT record's URI, nor its fidelity node's, is the encounter URI) |
| `OntologyFacts.EncounterInput` | intervention-system/ontology_core.py:41 | an encounter has exactly one `has_specified_input` edge, to `delivered_to_uri` (when no BCT record's URI, nor its fidelity node's, is the encounter URI) |
| `OntologyFacts.EncounterProtocol` | intervention-system/ontology_core.py:53-54 | an encounter realizes exactly one protocol, `protocol/{protocol_id}` (when no BCT record's URI, nor its fidelity node's, is the encounter URI) |
| `OntologyFacts.EncounterAgent` | intervention-system/ontology_core.py:56-57 | an encounter has exactly one agent, `practitioner/{practitioner_id}` (when no BCT record's URI, nor its fidelity node's, is the encounter URI) |
| `OntologyFacts.EncounterParts` | intervention-system/ontology_core.py:59-61 | the encounter's has-part edges go to exactly its BCT records |
| `OntologyFacts.BctsPartOfEncounter` | intervention-system/ontology_core.py:95 | every BCT record of an encounter has a part-of edge back to it |
| `OntologyFacts.BctsParts` | intervention-system/ontology_core.py:59-61 | among the BCT writes, the has-part and part-of edges pair the encounter with each record and with nothing else |
| `OntologyFacts.EncounterComment` | intervention-system/ontology_core.py:63-65 | the encounter has a comment iff its notes are non-empty, and the comment is then the notes in English (when no BCT record's URI, nor its fidelity node's, is the encounter URI) |
| `OntologyFacts.BctCommentAndFlag` | intervention-system/ontology_core.py:87-93 | a BCT has a comment iff its notes are non-empty. It has exactly one `auto_tagged` value: the record's flag, or false when absent |
| `OntologyFacts.EncounterBctsRecorded` | intervention-system/ontology_core.py:87-93 | within a whole encounter, every BCT's notes and `auto_tagged` flag are recorded |
| `OntologyFacts.FidelityInherence` | intervention-system/ontology_core.py:101-106 | the fidelity node inheres in its BCT, and that is its only inherence edge |
| `OntologyFacts.FidelityFacts` | intervention-system/ontology_core.py:101-113 | the fidelity node differs from its BCT and holds no measurement, part or comment |
| `OntologyFacts.QualitiesInhereInParents` | intervention-system/ontology_core.py:101-134 | the encounter's inherence edges are exactly: the mode and duration nodes in the encounter, and each BCT's fidelity node in that BCT |
| `OntologyFacts.DurationStored` | intervention-system/ontology_core.py:136-137 | the duration node holds exactly one measurement value: the minutes as an integer |
| `OntologyFacts.ParticipantAttributes` | intervention-system/ontology_core.py:180-193 | each tag gives a node `{participant}/attribute/{tag_name}`. It inheres in the participant, has the parsed class, carries the tag name with `_` shown as spaces as its label, and carries the category as a string |
| `OntologyFacts.ParticipantTypes` | intervention-system/ontology_core.py:146-147 | a participant node is typed exactly as a material entity and an intervention recipient |
| `BcioUris.ParseBcioUri` | intervention-system/ontology_core.py:197-201 | `bcio:` ids become BCIO IRIs with every `bcio:` removed; anything else is kept as the IRI |
| `BcioUris.ParseBcioUriExpands` | intervention-system/ontology_core.py:198-200 | `bcio:` followed by a local name with no further `bcio:` expands to that name in the BCIO namespace |
| `BcioUris.ParseBcioUriFromId` | intervention-system/ontology_core.py:203-215 | `""` gives `BCIO_unknown`, and every result is in the BCIO namespace |
| `BcioUris.ParseNumericId` | intervention-system/ontology_core.py:207-211 | a numeric `BCIO:` id keeps its number, zero-padded to at least seven digits |
| `BcioUris.ParseBcioIdDropsUnderscores` | intervention-system/ontology_core.py:208 | a `BCIO:` id loses every underscore |
| `BcioUris.ParseForeignId` | intervention-system/ontology_core.py:214-215 | any other non-empty id keeps its characters, except that each `:` becomes `_` |
| `JsonLd.Context` | intervention-system/ontology_core.py:232-253 | the encounter and participant kinds get their own term maps; any other kind gets only `@vocab` |
| `JsonLd.AddContext` | intervention-system/ontology_core.py:229-258 | every key of the record is kept with its value, and `@context` is added. A record's own `@context` wins, and nothing else is added |
| `JsonLd.EncounterContextMatchesGraph` | intervention-system/ontology_core.py:240 | the context's `delivered_to_uri` term expands to the very predicate the builder writes for that field |
| `JsonLd.ParticipantContextTerms` | intervention-system/ontology_core.py:248-249 | the participant context makes `participant_uri` the node id and types `age` as an integer |
| `Validation.ValidateAgainstBcio` | intervention-system/ontology_core.py:300-322 | the report is always valid, with no errors. It has exactly one warning iff some `BCIO_000001` subject lacks a `has_specified_input` edge |
| `Validation.EncounterKeepsGraphClean` | intervention-system/ontology_core.py:31-67 | writing a whole encounter into a graph that validates without warning keeps it so, when no BCT class or fidelity type parses to the encounter class |
| `Validation.EncounterPrefixKeepsGraphClean` | intervention-system/ontology_core.py:34-41 | an encounter whose minutes fail to parse also keeps a clean graph clean |
| `Validation.BareEncounterWarns` | intervention-system/ontology_core.py:308-320 | an encounter node with no participant edge is reported |
| `Barriers.BarrierAssessmentGraph.constructor` | intervention-system/barrier_assessment.py:83-85 | a non-empty base graph is used as it is; an absent or empty one is replaced by a new graph |
| `Barriers.BarrierAssessmentGraph.AddBarrierAssessment` | intervention-system/barrier_assessment.py:93-153 | adds exactly the assessment's writes, up to the first failing lookup. Returns the assessment IRI, or the timepoint, domain or barrier type that was not found. Barrier nodes carry the mechanism IRI as written |
| `Barriers.BarrierAssessmentGraph.AddBarrierScores` | intervention-system/barrier_assessment.py:141-151 | adds one barrier node (mechanism IRI as written) and has-part edge per entry, in order, up to the first unknown barrier type |
| `Barriers.BarrierAssessmentGraph.CreateBarrierInstance` | intervention-system/barrier_assessment.py:155-204 | an unknown barrier type fails before anything is written. Otherwise it adds exactly the barrier node's nine triples, mechanism IRI as written, and returns its IRI |
| `Barriers.BarrierAssessmentGraph.WriteBarrierNode` | intervention-system/barrier_assessment.py:168-202 | adds exactly the nine triples of a barrier node, the mechanism edge with the doubled `BCIO_` prefix |
| `Barriers.BarrierAssessmentGraph.AddFollowUpAssessment` | intervention-system/barrier_assessment.py:206-270 | adds the assessment itself and the links, changes and outcomes of every scored type. The baselines it uses are those it read from the graph. Barrier nodes carry the mechanism IRI as written |
| `Barriers.BarrierAssessmentGraph.LinkFollowUps` | intervention-system/barrier_assessment.py:240-268 | for each entry in order: the reassessment edge, plus the change and outcome when the baseline has a score |
| `Barriers.BarrierAssessmentGraph.LinkFollowUp` | intervention-system/barrier_assessment.py:241-268 | one entry: the reassessment edge, plus the change and outcome only when a baseline score was read |
| `Barriers.BarrierAssessmentGraph.GetBarrierScore` | intervention-system/barrier_assessment.py:272-283 | returns some severity score of the node, or none exactly when it has no score |
| `Barriers.BarrierAssessmentGraph.GetParticipantBarriers` | intervention-system/barrier_assessment.py:285-335 | an unknown domain or timepoint key fails. Otherwise there is one entry per solution of the query, in `ORDER BY` order, each as `ViewAsWritten` reads its row (a zero change absent) |
| `Barriers.OrderRows` | intervention-system/barrier_assessment.py:305-322 | the solutions, each listed once, in ascending (domain, timepoint) order |
| `Barriers.ViewsOf` | intervention-system/barrier_assessment.py:324-333 | one entry per row, in row order, each read as written |
| `Barriers.ViewAsWritten` | intervention-system/barrier_assessment.py:326-332 | the entry of `ViewOf` except the change: a bound non-zero change is kept, and a zero or unbound one is absent |
| `Barriers.ViewOf` | intervention-system/barrier_assessment.py:326-332 | the entry shows the label, the text after the domain IRI's last `/`, the text after the timepoint's last `:`, and the score. A change the row binds is kept, zero included |
| `Progress.EntriesReadAsWritten` | intervention-system/barrier_assessment.py:324-333 | the listed entries are the rows' intended entries with their change read as written |
| `Barriers.ChangeAsWritten` | intervention-system/barrier_assessment.py:332 | a bound change of 0 reads as none, and every other bound change is kept |
| `Barriers.MechanismIri` | intervention-system/barrier_assessment.py:201-202 | a `BCIO_` mechanism id denotes the BCIO class numbered by the rest of the id |
| `Barriers.MechanismIriAsWritten` | intervention-system/barrier_assessment.py:201 | the id is appended whole to the BCIO namespace |
| `BarrierFacts.AssessmentSucceedsIffKnown` | intervention-system/barrier_assessment.py:133-165 | an assessment succeeds iff its timepoint, its domain and every barrier type are table keys |
| `BarrierFacts.AssessmentErrors` | intervention-system/barrier_assessment.py:133-165 | lookups happen in the order timepoint, domain, barrier types, and the first failure is reported |
| `BarrierFacts.AssessmentParts` | intervention-system/barrier_assessment.py:141-151 | the assessment's has-part edges go to one barrier node per written entry: all entries when all types are known, and the entries before the first unknown type otherwise |
| `BarrierFacts.EmptyAssessment` | intervention-system/barrier_assessment.py:117-134 | an empty score map still creates the typed, dated assessment node, with no parts |
| `BarrierFacts.ReassessedSameNode` | intervention-system/barrier_assessment.py:168-170 | the date is not part of a barrier IRI. Two assessments on different dates with the same key write one node, which then holds both scores |
| `BarrierFacts.BarrierUriTypeInjective` | intervention-system/barrier_assessment.py:168-170 | barrier IRIs that differ in the barrier type differ |
| `BarrierFacts.BarrierNotAssessment` | intervention-system/barrier_assessment.py:117-119 | a barrier IRI is never an assessment IRI |
| `BarrierFacts.NodeScore` | intervention-system/barrier_assessment.py:193-194 | the node holds the score it was given as an integer, for any integer: nothing checks the range |
| `BarrierFacts.NodeTypes` | intervention-system/barrier_assessment.py:172-175 | a barrier node is typed by its barrier class and as a quality, and by nothing else |
| `BarrierFacts.BarrierNodeFacts` | intervention-system/barrier_assessment.py:155-204 | the node written for a type records the score, inheres in the participant, has the type's class and is addressable by exactly the type's mechanism, written with the doubled prefix |
| `BarrierFacts.FollowUpMatchesCreatedNode` | intervention-system/barrier_assessment.py:169 | the node the follow-up names equals the node the assessment created iff the participant id contains no `/` |
| `BarrierFacts.FollowUpLink` | intervention-system/barrier_assessment.py:241-250 | every scored type is linked to the recomputed baseline IRI, whether or not that node exists |
| `BarrierFacts.ChangeIffBaselineScored` | intervention-system/barrier_assessment.py:246-257 | a change edge is written iff the baseline node has a score. The change is then `followup - baseline` for one of those scores |
| `BarrierFacts.FollowUpChange` | intervention-system/barrier_assessment.py:253-257 | the change is `followup - baseline` when a baseline score was read, and absent otherwise |
| `BarrierFacts.FollowUpOutcome` | intervention-system/barrier_assessment.py:259-268 | with a baseline, exactly one outcome class is added (reduction, increase or stable, by the sign of the change); without one, no type is added |
| `BarrierFacts.OutcomeClasses` | intervention-system/barrier_assessment.py:259-268 | reduction for a negative change, increase for a positive one, stable for zero |
| `BarrierFacts.FollowUpOtherType` | intervention-system/barrier_assessment.py:240-268 | a follow-up writes nothing about the node of a type that is not in its score map |
| `Barriers.FollowUpWritesNoScore` | intervention-system/barrier_assessment.py:240-268 | no follow-up triple is a severity score |
| `BarrierFacts.FollowUpFindsBaseline` | intervention-system/barrier_assessment.py:241-246 | for an id without `/`, a baseline assessment's score is on the node the follow-up reads |
| `BarrierFacts.SolutionsExact` | intervention-system/barrier_assessment.py:305-322 | the query's solutions are exactly the rows that meet every pattern and filter |
| `BarrierFacts.AssessedBarrierListed` | intervention-system/barrier_assessment.py:295-332 | a barrier written for an id without `/` is listed by that participant's query, with its score, label, domain and timepoint, whether unfiltered or filtered by its own domain and timepoint |
| `BarrierFacts.BarrierRowShown` | intervention-system/barrier_assessment.py:326-332 | the entry shows the label, the table's domain name and the timepoint's short name, with the row's score and the change read as written |
| `BarrierFacts.TimepointShown` | intervention-system/barrier_assessment.py:330 | the timepoint shown is the name after `timepoint:` in the table's local name |
| `BarrierFacts.DomainShown` | intervention-system/barrier_assessment.py:329 | the domain shown is the table's domain name |
| `BarrierFacts.MechanismIris` | intervention-system/barrier_assessment.py:201-202 | the mechanism ids carry `BCIO_`. As written they get the prefix twice; as OBO local names they are BCIO classes |
| `BarrierFacts.SkillsMechanismAsWritten` | intervention-system/barrier_assessment.py:201 | the skills mechanism is written as `…/obo/BCIO_BCIO_0000532` |
| `Progress.ProgressStatsCases` | intervention-system/barrier_assessment_app.py:178-203 | no barriers: no statistics. No change in any barrier: baseline only. Otherwise a summary of the follow-ups |
| `Progress.ProgressSummary` | intervention-system/barrier_assessment_app.py:190-200 | improved + stable + worsened = total = the number of follow-ups. The mean lies between the minimum and maximum change, and both occur. There is an improvement (worsening) iff the minimum is negative (maximum positive) |
| `Progress.PageStatsAgree` | intervention-system/app.py:557-571 | the pages' copy agrees with `calculate_progress_stats` on every non-empty list, less the extremes. It reports baseline only where the latter returns nothing |
| `Progress.Changes` | intervention-system/barrier_assessment_app.py:185-190 | the changes of exactly the barriers that have one, in list order |
| `Progress.ReadAsWritten` | intervention-system/barrier_assessment.py:332 | entries as the engine builds them |
| `Progress.StableNeverCountedAsWritten` | intervention-system/barrier_assessment_app.py:196 | with changes read as written, the summary never counts a barrier as stable |
| `Progress.StableBarrierReadAsBaseline` | intervention-system/barrier_assessment_app.py:185-188 | a barrier stored with change 0 is stable by its stored value, but is read as "baseline only" |
| `Progress.OrganizeForDisplay` | intervention-system/barrier_assessment_app.py:153-175 | the nested dictionary holds exactly the domains and names that occur, and each group holds that key's entries in list order |
| `Progress.EachBarrierGroupedOnce` | intervention-system/barrier_assessment_app.py:160-173 | over the distinct keys, the group sizes add up to the number of barriers: each barrier is placed once |
| `ChangeStats.SignPartition` | intervention-system/barrier_assessment_app.py:195-197 | every change is counted under exactly one of improved, stable and worsened |
| `ChangeStats.SignCountPermutation` | intervention-system/barrier_assessment_app.py:293-295 | the counts by sign depend only on the multiset of changes |
| `ChangeStats.MeanBounds` | intervention-system/barrier_assessment_app.py:198 | the mean lies between the smallest and the largest change |
| `ChangeStats.MeanPermutation` | intervention-system/barrier_assessment_app.py:198 | the mean does not depend on the order of the changes |
| `ChangeStats.SumPermutation` | intervention-system/barrier_assessment_app.py:198 | the sum does not depend on the order of the changes |
| `ChangeStats.Histogram` | intervention-system/barrier_assessment_app.py:287-288 | each value's bin is its number of occurrences, and only values that occur have a bin |
| `ChangeStats.HistogramPermutation` | intervention-system/barrier_assessment_app.py:288 | the histogram depends only on the multiset of changes |
| `ChangeStats.HistogramAccountsForAll` | intervention-system/barrier_assessment_app.py:288 | over its distinct values, the histogram's bins add up to the number of changes |
| `ChangeStats.Sorted` | intervention-system/barrier_assessment_app.py:280 | ascending, and a permutation of the changes |
| `ServiceAnalytics.AvgBarrierReduction` | intervention-system/barrier_assessment_app.py:219-228 | the mean of every change edge in the graph, whatever the engine's order, and 0 with none |
| `ServiceAnalytics.CompareTargetedDomains` | intervention-system/barrier_assessment_app.py:231-270 | the mean over employment barriers, the mean over (barrier, other domain) pairs, and their difference |
| `ServiceAnalytics.TargetedOrNot` | intervention-system/barrier_assessment_app.py:240-258 | a barrier with one domain is on exactly one side of the comparison |
| `ServiceAnalytics.ChangeScoreDistribution` | intervention-system/barrier_assessment_app.py:273-296 | the changes are ascending, one per solution. A bin exists per change that occurs and counts its solutions. Improved, stable and worsened count the solutions by sign |
| `ServiceAnalytics.DistributionAccountsForAll` | intervention-system/barrier_assessment_app.py:293-295 | every change solution is counted once, as improved, stable or worsened |
| `ServiceAnalytics.DashboardOf` | intervention-system/app_enhanced.py:780-822 | the dashboard average is the mean over all changes. It is shown as the targeted average against a non-targeted 0, with `abs_difference` its absolute value. `has_data` holds iff some change exists |
| `ServiceAnalytics.DashboardDistributionAgrees` | intervention-system/app_enhanced.py:792-818 | the dashboard's distribution equals `get_change_score_distribution`'s except for the order of the change list |
| `ServiceAnalytics.AssessmentCounted` | intervention-system/barrier_assessment_app.py:206-216 | every barrier assessment is counted, even one that fails on an unknown key |
| `ServiceAnalytics.EncounterNotCounted` | intervention-system/barrier_assessment_app.py:211 | an encounter (`BCIO_000001`) is not counted as an assessment (`BCIO_0000001`) |
| `Tagging.BctUriInjective` | intervention-system/app_enhanced.py:243-245 | different slots of one encounter give different instance URIs |
| `Tagging.ConfirmedDefs` | intervention-system/app_enhanced.py:266-270 | the confirmed techniques of the protocol, each one present exactly when confirmed |
| `Tagging.ConfirmedInCatalogueOrder` | intervention-system/app_enhanced.py:266-289 | the confirmed techniques keep the catalogue's order |
| `Tagging.TagConfirmed` | intervention-system/app_enhanced.py:263-289 | the loop with its running counter `bct_index` yields the confirmed techniques' instances, numbered from 1 |
| `Tagging.AutoTag` | intervention-system/app_enhanced.py:248-310 | returns the tagged list: the confirmed instances, then the referral instance when it is injected |
| `Tagging.AutoTagInstantiatesConfirmed` | intervention-system/app_enhanced.py:266-289 | exactly the confirmed catalogue techniques come first, in catalogue order, each with its class, labels and `auto` flag. At most one instance follows |
| `Tagging.AutoTagSlotsContiguous` | intervention-system/app_enhanced.py:263-296 | slots run 1..n without gaps, across confirmed and injected instances |
| `Tagging.AutoTagFidelity` | intervention-system/app_enhanced.py:272-286 | fidelity defaults to `not_assessed` and notes to `""`. The quality type is `bcio:Fidelity_` + the fidelity |
| `Tagging.AutoTagReferral` | intervention-system/app_enhanced.py:292-308 | exactly one BCT 12.5 instance (delivered, auto-tagged, with the referral notes) is added iff a referral was made and no confirmed id contains `BCT_12.5`. After a referral, the list always holds a BCT 12.5 technique |
| `Tagging.SubstringSuppressesReferral` | intervention-system/app_enhanced.py:293 | the duplicate check is a substring test: an id such as `BCT_12.55` suppresses the referral technique |
| `Tagging.UnknownProtocolTagsNothing` | intervention-system/app_enhanced.py:264 | an unknown protocol contributes no technique |
| `Tagging.AutoTagIgnoresUnknownConfirmations` | intervention-system/app_enhanced.py:266-270 | confirmations of techniques outside the protocol change nothing |
| `Tagging.ListedReferralNotDuplicated` | intervention-system/encounter_app.py:378-379 | a protocol that lists BCT 12.5 first and only there yields exactly one BCT 12.5 instance when it is confirmed, whatever the referral |
| `Tagging.SubmitEncounterBcts` | intervention-system/encounter_app.py:428-461 | fails for an unknown protocol; otherwise `num_bcts` equals the length of the tagged list |
| `Catalogs.ReferralProvisionAddsNoSecond` | intervention-system/encounter_app.py:301-311 | for `referral_provision` with BCT 12.5 confirmed, a referral adds no second BCT 12.5, and the one instance is in slot 1 |
| `InlineTagging.ChosenProtocol` | intervention-system/app.py:419 | a known id gives its protocol, and an unknown one `employment_support_v1` |
| `InlineTagging.InstantiateBcts` | intervention-system/app.py:423-445 | one instance per technique of the protocol, in catalogue order |
| `InlineTagging.InlineBctInstances` | intervention-system/app.py:419-445 | the protocol lookup with its fallback, then one instance per technique |
| `InlineTagging.InlineInstantiatesAll` | intervention-system/app.py:424-445 | every technique is instantiated, confirmed or not, so the length equals the catalogue's. Fidelity defaults to `delivered` and notes to `""`, and nothing is auto-tagged |
| `InlineTagging.InlineFallback` | intervention-system/app.py:419 | an unknown protocol id is tagged as `employment_support_v1` |
| `InlineTagging.InlineUrisDistinct` | intervention-system/app.py:433 | techniques with distinct, underscore-free ids get distinct URIs `…/bct/{encounter}-{id with . as _}` |
| `InlineTagging.InlineInstanceUrisDistinct` | intervention-system/app.py:396-445 | the instances recorded for one encounter all have different URIs |
| `Identifiers.ParticipantIdFormat` | intervention-system/app.py:121-123 | an id is `P` followed by at least three digits whose value is `count + 1`: it is padded, never truncated |
| `Identifiers.ParticipantIdInjective` | intervention-system/app_enhanced.py:387-389 | different counts give different ids |
| `Identifiers.CreatingParticipantAdvancesId` | intervention-system/app.py:114-123 | recording a new participant raises the count, so the next participant gets a different id |
| `Identifiers.ParticipantUriKeepsId` | intervention-system/participant_intake_app.py:33-34 | the participant URI is the participant namespace followed by the id |
| `Identifiers.ParticipantUriInjective` | intervention-system/participant_intake_app.py:33-34 | different ids give different URIs |
| `Identifiers.EncounterUri` | intervention-system/encounter_app.py:414 | the encounter URI is the encounter namespace followed by the id |
| `Identifiers.NumberedBctsApart` | intervention-system/encounter_app.py:363 | BCT instances numbered under the encounter's id are, with their fidelity nodes, never the encounter node |
| `Identifiers.InlineBctsApart` | intervention-system/app.py:433 | BCT instances in the `bct` namespace are, with their fidelity nodes, never the encounter node |
| `Identifiers.ParticipantEncounters` | intervention-system/encounter_app.py:476-482 | keeps exactly the encounters delivered to the participant's URI |
| `Identifiers.ParticipantEncountersInOrder` | intervention-system/encounter_app.py:479-482 | the kept encounters keep their stored order |
| `Identifiers.ParticipantEncountersAppend` | intervention-system/encounter_app.py:479-482 | encounters saved later are listed after earlier ones |
| `Intake.AgeIsBirthdaysReached` | intervention-system/participant_intake_app.py:130-134 | the age is the number of birthdays reached. It is the year difference minus 1 iff today's (month, day) is before the birth (month, day) |
| `Intake.GenerateBcioAttributes` | intervention-system/participant_intake_app.py:143-263 | the rules appended in order, one list; the ex-offender tag is always present |
| `Intake.AttributesByCategory` | intervention-system/participant_intake_app.py:143-263 | each category is filled by its own rules only, in rule order |
| `Intake.AgeBands` | intervention-system/participant_intake_app.py:146-152 | teenager iff 13..19, young adult iff 18..25 and adult iff 18 or older; the bands overlap |
| `Intake.GenderDisclosed` | intervention-system/participant_intake_app.py:154-155 | a gender tag is present only for a given gender that was not withheld |
| `Intake.ReentryTags` | intervention-system/participant_intake_app.py:157-168 | the ex-offender tag is always present. The first-month tag (≤ 30 days) comes with recently released (≤ 90). Supervision is tagged for every status except `none` |
| `Intake.HousingTypeOnlyWhenStable` | intervention-system/participant_intake_app.py:170-191 | the housing status gives its tag. A housing-type tag appears only for stable housing, and always for a stable home of a known type |
| `Intake.SubstanceUse` | intervention-system/participant_intake_app.py:193-211 | substance tags, recovery and active use included, appear only when substances other than `none` were ticked |
| `Intake.MentalHealthDisclosed` | intervention-system/participant_intake_app.py:213-217 | every ticked condition is disclosed as a DOID tag when `none` is not ticked; otherwise there is no DOID tag |
| `Intake.DisabilityTagged` | intervention-system/participant_intake_app.py:219-222 | a disability gives the disabled tag; long-term disabled appears only with it |
| `Intake.MedicationTagged` | intervention-system/participant_intake_app.py:224-229 | medication use gives its tag and one tag per medication type; the medication tags appear only then |
| `Intake.EducationAndRelationship` | intervention-system/participant_intake_app.py:231-252 | a known level or status gives its one tag, and nothing else gives one |
| `Intake.EmploymentTagged` | intervention-system/participant_intake_app.py:254-261 | full or part time gives employed. Seeking work gives unemployed and job seeking. Unable gives unable to work. Anything else gives nothing |
| `Strings.ZFillDigits` | intervention-system/app.py:123 | `zfill` on digits only prepends zeros and keeps the value |
| `Strings.NatToDecimalValue` | intervention-system/app.py:123 | `str(n)` is decimal digits whose value is `n` |
| `Strings.ParseIntRoundTrip` | intervention-system/ontology_core.py:136 | `int(str(i)) == i` for every integer |
| `Strings.ReplaceCharPointwise` | intervention-system/ontology_core.py:189 | replacing one character by another changes exactly the positions holding it |
| `Strings.LastSegmentSuffix` | intervention-system/barrier_assessment.py:329-330 | `split(sep)[-1]` is the text after the last separator, or the whole string when there is none |
| `StringOrder.StrLeTotal` | intervention-system/barrier_assessment.py:321 | any two texts are comparable under the `ORDER BY` order |

## Left out

- Flask routing, templates, form extraction, `flash` and `redirect` are web glue.
  - Form values reach the model as arguments.
  - A missing form value (`None`) is modelled as the empty string, except where its `str()` is
    shown. A missing supervision status gives the tag id `BCIO:supervision_None`; the model
    also names that tag with the text `None`, where the source's name is the `None` object
    itself (JSON `null`). A missing referral category is the exception below
    (`Tagging.ReferralNotes`).
- Turtle parsing and serialising, `load_graph` and `save_graph`, `BCIOGraph.save` and
  `serialize`, and namespace binding are library I/O. The graph is a triple set with no text form.
- The SPARQL engine is not modelled as such.
  - Each query is a set of solutions over the triples, and the engine's answer is a parameter
    that lists that set.
- `TripleStoreManager`, the SQLite code of the intake app, the JSON files of the encounter app and
  the file-serving API routes are storage and network I/O.
- The clock, `uuid4` and timestamp-based ids are not modelled. Dates, encounter ids and
  assessment dates are parameters.
- `calculate_days_since_release` is calendar subtraction. The days since release are an input of
  the intake rules.
- `demo_data_generator.py` and `quick_start.py` are randomness, subprocesses and interactive
  input.
- Floating-point averages (`sum/len`, SPARQL `AVG`, `float()`) are exact rational means
  (`real`); rounding is not modelled.
- `total_assessments` in the dashboards of `app.py` and `app_enhanced.py` is not modelled.
  - It counts `?assessment`, which its pattern never binds. SPARQL `COUNT` skips unbound values,
    so the count is 0 and `total_assessments` is always `0 // 6 = 0`.
  - `ServiceAnalytics.DashboardOf` covers the rest of the `app_enhanced.py` dashboard. It gives no
    assessment count.
- Concurrent requests that load, change and save the same graph are outside a sequential model.
- Barriers.OrderRows: rows that tie on (domain, timepoint) may come in any order, because the
  engine's order among them is unspecified.
- Barriers.BarrierAssessmentGraph.GetBarrierScore: returns any score of the node, not "the
  first". With several scores on one node, the engine's first solution is not determined by the
  graph.
- Barriers.BarrierAssessmentGraph.AddFollowUpAssessment: the baselines are the scores its reads
  returned, one of possibly several per node. Which one is taken is not fixed.
- OntologyCore.BcioGraph.AddEncounterInstance: the timestamp, the creation date and the
  assessment date are kept as opaque strings. Their `xsd:dateTime` form is not checked.
- Progress.PageStatsAgree: the `app.py` and `app_enhanced.py` copies of the stats block are the
  same code. The lemma is stated once, against the `app.py` lines.
- Tagging.ReferralNotes: a category or destination the record lacks is written as
  `unspecified` or as nothing. The submit handlers always store both keys, so a referral form
  without a category holds `None` there and the source writes `Referral to None`; that text is
  not modelled.
- Intake.Age: takes a parsed date. The `strptime` parse of the birth date and the `ValueError`
  it raises on a malformed date are not modelled.
- Strings.ParseInt: accepts ASCII digits only (it strips the same white space as Python's
  `int()`). Python's `int()` also accepts other Unicode decimal digits (for example Arabic-Indic ones) in the duration minutes; such text is read as
  an error here.
- Strings.IsDigits: ASCII digits only, where Python's `isdigit()` also accepts other Unicode
  digits.
- Tagging.AutoTag: one definition covers both copies. The catalogue is a parameter, and the two
  referral-notes formats are a parameter too.

## Findings

| source | as written | input that shows it | evidently intended | confidence | as-written member | corrected member |
|---|---|---|---|---|---|---|
| intervention-system/barrier_assessment.py:332 | the change is read only if the literal is truthy. rdflib makes an integer literal 0 false, so a change of 0 is read as no change | a follow-up that scores a barrier the same as its baseline: change 0, typed `Barrier_Stable`. The participant's list shows no change, and the progress statistics call it baseline only, never stable | a bound change is read as its integer value, 0 included, so stable barriers are counted as stable | not executed | `Barriers.ChangeAsWritten` and `Barriers.ViewAsWritten` (with `Progress.StableBarrierReadAsBaseline` and `Progress.StableNeverCountedAsWritten`) | `Barriers.ViewOf` (with `Progress.ProgressSummary`) |
| intervention-system/barrier_assessment.py:201 | the table's mechanism ids already start with `BCIO_`, and the BCIO namespace adds that prefix again | any barrier of the skills mechanism gets the mechanism `http://purl.obolibrary.org/obo/BCIO_BCIO_0000532` | `http://purl.obolibrary.org/obo/BCIO_0000532`, the BCIO class the id names | not executed | `Barriers.MechanismIriAsWritten` (with `BarrierFacts.SkillsMechanismAsWritten`) | `Barriers.MechanismIri` (with `BarrierFacts.MechanismIris`) |
