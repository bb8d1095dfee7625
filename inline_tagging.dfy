/**
 * The BCT loop inside `submit_encounter` of `app.py`: every technique of the chosen protocol
 * becomes an instance, whether confirmed or not, with its fidelity and notes read from the form.
 * An unknown protocol falls back to `employment_support_v1`.
 */
module InlineTagging {
  import opened Wrappers
  import opened Strings
  import opened Records

  /** A technique as `app.py`'s local catalogue lists it: one label serves as both labels. */
  datatype InlineBct = InlineBct(bctId: string, name: string, bctClass: string)

  datatype InlineProtocol = InlineProtocol(name: string, bcts: seq<InlineBct>)

  const DEFAULT_PROTOCOL := "employment_support_v1"

  const EMPLOYMENT_SUPPORT_V1 := InlineProtocol("Employment Support Protocol v1.0", [
    InlineBct("1.1", "Goal setting (behaviour)", "bcio:0000001"),
    InlineBct("1.4", "Action planning", "bcio:0000002"),
    InlineBct("1.2", "Problem solving", "bcio:0000003"),
    InlineBct("3.1", "Social support (practical)", "bcio:0000004"),
    InlineBct("2.3", "Self-monitoring of behaviour", "bcio:0000005"),
    InlineBct("15.1", "Verbal persuasion about capability", "bcio:0000006")])

  const ACCOMMODATION_SUPPORT_V1 := InlineProtocol("Accommodation Support Protocol v1.0", [
    InlineBct("12.1", "Restructuring physical environment", "bcio:0000007"),
    InlineBct("3.1", "Social support (practical)", "bcio:0000004"),
    InlineBct("1.4", "Action planning", "bcio:0000002"),
    InlineBct("4.1", "Instruction on how to perform behaviour", "bcio:0000008")])

  /** The `protocols` dict local to `submit_encounter`. */
  const INLINE_CATALOG: map<string, InlineProtocol> := map[
    DEFAULT_PROTOCOL := EMPLOYMENT_SUPPORT_V1,
    "accommodation_support_v1" := ACCOMMODATION_SUPPORT_V1]

  /** `protocols.get(protocol_id, protocols['employment_support_v1'])`. */
  function ChosenProtocol(protocolId: string): (p: InlineProtocol)
    ensures protocolId !in INLINE_CATALOG ==> p == EMPLOYMENT_SUPPORT_V1
  {
    if protocolId in INLINE_CATALOG then INLINE_CATALOG[protocolId] else INLINE_CATALOG[DEFAULT_PROTOCOL]
  }

  /** `request.form.get(key, default)`. */
  function FormGet(form: map<string, string>, key: string, default: string): string {
    if key in form then form[key] else default
  }

  /** The instance URI: the encounter id and the technique id with every '.' made '_'. */
  function InlineBctUri(encounterId: string, bctId: string): string {
    INTERVENTION_BCTS + encounterId + "-" + ReplaceAll(bctId, ".", "_")
  }

  const INTERVENTION_BCTS := "http://interventions.org/bct/"

  function InlineInstance(encounterId: string, b: InlineBct, form: map<string, string>): BctRecord {
    BctRecord(InlineBctUri(encounterId, b.bctId), b.bctClass, b.bctId, b.name, b.name,
              Fidelity(FormGet(form, "bct_fidelity_" + b.bctId, "delivered"), "bcio:fidelity_quality"),
              FormGet(form, "bct_notes_" + b.bctId, ""), Some(false), None)
  }

  /** One instance per catalogue technique, in catalogue order. */
  function InlineInstances(encounterId: string, bcts: seq<InlineBct>, form: map<string, string>): (r: seq<BctRecord>)
    ensures |r| == |bcts|
    ensures forall i :: 0 <= i < |r| ==> r[i] == InlineInstance(encounterId, bcts[i], form)
    decreases |bcts|
  {
    if bcts == [] then []
    else
      var n := |bcts| - 1;
      InlineInstances(encounterId, bcts[..n], form) + [InlineInstance(encounterId, bcts[n], form)]
  }

  /** The loop of `submit_encounter` in `app.py`, over the chosen protocol's techniques. */
  method InstantiateBcts(encounterId: string, bcts: seq<InlineBct>, form: map<string, string>)
    returns (instances: seq<BctRecord>)
    ensures instances == InlineInstances(encounterId, bcts, form)
  {
    instances := [];
    for k := 0 to |bcts|
      invariant instances == InlineInstances(encounterId, bcts[..k], form)
    {
      var bct := bcts[k];
      assert bcts[..k + 1][..k] == bcts[..k];
      var fidelity := FormGet(form, "bct_fidelity_" + bct.bctId, "delivered");
      var notes := FormGet(form, "bct_notes_" + bct.bctId, "");
      instances := instances + [BctRecord(InlineBctUri(encounterId, bct.bctId), bct.bctClass, bct.bctId,
                                          bct.name, bct.name, Fidelity(fidelity, "bcio:fidelity_quality"),
                                          notes, Some(false), None)];
    }
    assert bcts[..|bcts|] == bcts;
  }

  /** The protocol lookup of `submit_encounter`, then its loop. */
  method InlineBctInstances(protocolId: string, encounterId: string, form: map<string, string>)
    returns (instances: seq<BctRecord>)
    ensures instances == InlineInstances(encounterId, ChosenProtocol(protocolId).bcts, form)
  {
    var protocol := if protocolId in INLINE_CATALOG then INLINE_CATALOG[protocolId] else INLINE_CATALOG[DEFAULT_PROTOCOL];
    instances := InstantiateBcts(encounterId, protocol.bcts, form);
  }

  /**
   * Every technique of the chosen protocol is instantiated, confirmed or not, in catalogue
   * order; fidelity defaults to "delivered", notes to "", and nothing is auto-tagged.
   */
  lemma InlineInstantiatesAll(protocolId: string, encounterId: string, form: map<string, string>)
    ensures var bcts := ChosenProtocol(protocolId).bcts;
            var r := InlineInstances(encounterId, bcts, form);
            && |r| == |bcts|
            && forall i :: 0 <= i < |r| ==>
                 && r[i].bctId == bcts[i].bctId && r[i].bctClass == bcts[i].bctClass
                 && r[i].practitionerLabel == bcts[i].name && r[i].formalLabel == bcts[i].name
                 && r[i].fidelity.value == FormGet(form, "bct_fidelity_" + bcts[i].bctId, "delivered")
                 && r[i].notes == FormGet(form, "bct_notes_" + bcts[i].bctId, "")
                 && r[i].autoTagged == Some(false)
  {
  }

  /** An unknown protocol id is tagged as `employment_support_v1`. */
  lemma InlineFallback(protocolId: string, encounterId: string, form: map<string, string>)
    requires protocolId !in INLINE_CATALOG
    ensures InlineInstances(encounterId, ChosenProtocol(protocolId).bcts, form)
            == InlineInstances(encounterId, ChosenProtocol(DEFAULT_PROTOCOL).bcts, form)
  {
  }

  /** Replacing '.' by '_' loses nothing on ids without '_'. */
  lemma DotsToUnderscoresInjective(a: string, b: string)
    requires '_' !in a && '_' !in b
    requires ReplaceAll(a, ".", "_") == ReplaceAll(b, ".", "_")
    ensures a == b
  {
    ReplaceCharPointwise(a, '.', '_');
    ReplaceCharPointwise(b, '.', '_');
    var ra := ReplaceAll(a, ".", "_");
    forall i | 0 <= i < |a|
      ensures a[i] == b[i]
    {
      assert ra[i] == (if a[i] == '.' then '_' else a[i]);
      assert ra[i] == (if b[i] == '.' then '_' else b[i]);
    }
  }

  /** Techniques with distinct, underscore-free ids get distinct instance URIs. */
  lemma InlineUrisDistinct(encounterId: string, x: string, y: string)
    requires '_' !in x && '_' !in y && x != y
    ensures InlineBctUri(encounterId, x) != InlineBctUri(encounterId, y)
  {
    var prefix := INTERVENTION_BCTS + encounterId + "-";
    if InlineBctUri(encounterId, x) == InlineBctUri(encounterId, y) {
      assert InlineBctUri(encounterId, x)[|prefix|..] == ReplaceAll(x, ".", "_");
      assert InlineBctUri(encounterId, y)[|prefix|..] == ReplaceAll(y, ".", "_");
      DotsToUnderscoresInjective(x, y);
    }
  }

  /** Technique ids that are pairwise distinct and free of '_'. */
  predicate PlainDistinctIds(bcts: seq<InlineBct>) {
    && (forall i :: 0 <= i < |bcts| ==> '_' !in bcts[i].bctId)
    && (forall i, j :: 0 <= i < j < |bcts| ==> bcts[i].bctId != bcts[j].bctId)
  }

  /** Both protocols of the catalogue have plain, distinct ids. */
  lemma InlineCatalogIdsPlain(protocolId: string)
    ensures PlainDistinctIds(ChosenProtocol(protocolId).bcts)
  {
    EmploymentIdsPlain();
    AccommodationIdsPlain();
  }

  lemma EmploymentIdsPlain()
    ensures PlainDistinctIds(EMPLOYMENT_SUPPORT_V1.bcts)
  {
    var ids := ["1.1", "1.4", "1.2", "3.1", "2.3", "15.1"];
    assert forall i :: 0 <= i < 6 ==> EMPLOYMENT_SUPPORT_V1.bcts[i].bctId == ids[i];
  }

  lemma AccommodationIdsPlain()
    ensures PlainDistinctIds(ACCOMMODATION_SUPPORT_V1.bcts)
  {
    var ids := ["12.1", "3.1", "1.4", "4.1"];
    assert forall i :: 0 <= i < 4 ==> ACCOMMODATION_SUPPORT_V1.bcts[i].bctId == ids[i];
  }

  /** The instances recorded for one encounter all have different URIs. */
  lemma InlineInstanceUrisDistinct(protocolId: string, encounterId: string, form: map<string, string>)
    ensures var r := InlineInstances(encounterId, ChosenProtocol(protocolId).bcts, form);
            forall i, j :: 0 <= i < j < |r| ==> r[i].instanceUri != r[j].instanceUri
  {
    var bcts := ChosenProtocol(protocolId).bcts;
    InlineCatalogIdsPlain(protocolId);
    forall i, j | 0 <= i < j < |bcts|
      ensures InlineBctUri(encounterId, bcts[i].bctId) != InlineBctUri(encounterId, bcts[j].bctId)
    {
      InlineUrisDistinct(encounterId, bcts[i].bctId, bcts[j].bctId);
    }
  }
}
