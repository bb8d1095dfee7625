/**
 * Encounter auto-tagging: turning one protocol of a catalogue and the practitioner's
 * confirmations into the ordered list of BCT instances recorded for an encounter, with
 * slot numbers 1..n, and a synthetic "Adding objects to the environment" instance (BCT 12.5)
 * when a referral was made and no instance already carries that technique.
 *
 * The procedure exists twice, in `app_enhanced.py` and in `encounter_app.py`, over different
 * catalogues; the copies differ only in the notes of the referral instance (`NotesStyle`).
 */
module Tagging {
  import opened Wrappers
  import opened Strings
  import opened Records

  /** One technique of a protocol as the catalogue lists it (its long definition text is not used). */
  datatype BctDef = BctDef(bctId: string, name: string, practitionerLabel: string, auto: bool, bctClass: string)

  /** A protocol: its display label and its techniques, in catalogue order. */
  datatype Protocol = Protocol(name: string, bcts: seq<BctDef>)

  /** `PROTOCOL_CATALOG`: protocol id to protocol. */
  type Catalog = map<string, Protocol>

  /** What the practitioner confirmed for one technique; a key missing from the dict is `None`. */
  datatype Confirmation = Confirmation(fidelity: Option<string>, notes: Option<string>)

  /** Which copy's referral notes: with the destination (`app_enhanced.py`) or without it. */
  datatype NotesStyle = CategoryAndDestination | CategoryOnly

  const REFERRAL_BCT_ID := "BCT_12.5"

  /** `generate_bct_uri`: the instance in slot `slot` of an encounter. */
  function BctUri(encounterId: string, slot: nat): string {
    INTERVENTION_ENCOUNTERS + encounterId + "/bct/" + NatToDecimal(slot)
  }

  const INTERVENTION_ENCOUNTERS := "http://interventions.org/encounter/"

  /** Different slots of one encounter never share an instance URI. */
  lemma BctUriInjective(encounterId: string, i: nat, j: nat)
    requires BctUri(encounterId, i) == BctUri(encounterId, j)
    ensures i == j
  {
    var prefix := INTERVENTION_ENCOUNTERS + encounterId + "/bct/";
    assert BctUri(encounterId, i)[|prefix|..] == NatToDecimal(i);
    assert BctUri(encounterId, j)[|prefix|..] == NatToDecimal(j);
    NatToDecimalInjective(i, j);
  }

  /** `PROTOCOL_CATALOG.get(protocol_id, {}).get('bcts', [])`. */
  function ProtocolBcts(catalog: Catalog, protocolId: string): (bcts: seq<BctDef>)
    ensures protocolId !in catalog ==> bcts == []
  {
    if protocolId in catalog then catalog[protocolId].bcts else []
  }

  /** The protocol's techniques that were confirmed, in catalogue order. */
  function ConfirmedDefs(bcts: seq<BctDef>, confirmed: map<string, Confirmation>): (defs: seq<BctDef>)
    ensures |defs| <= |bcts|
    ensures forall i :: 0 <= i < |defs| ==> defs[i].bctId in confirmed
    decreases |bcts|
  {
    if bcts == [] then []
    else
      var n := |bcts| - 1;
      assert bcts == bcts[..n] + [bcts[n]];
      var prev := ConfirmedDefs(bcts[..n], confirmed);
      if bcts[n].bctId in confirmed then prev + [bcts[n]] else prev
  }

  /** `a` is `b` with some elements left out, the rest in their original order. */
  ghost predicate Subsequence<T>(a: seq<T>, b: seq<T>)
    decreases |b|
  {
    if a == [] then true
    else if b == [] then false
    else if a[|a| - 1] == b[|b| - 1] then Subsequence(a[..|a| - 1], b[..|b| - 1])
    else Subsequence(a, b[..|b| - 1])
  }

  /** The confirmed techniques keep the catalogue's order. */
  lemma {:induction false} ConfirmedInCatalogueOrder(bcts: seq<BctDef>, confirmed: map<string, Confirmation>)
    ensures Subsequence(ConfirmedDefs(bcts, confirmed), bcts)
    decreases |bcts|
  {
    var defs := ConfirmedDefs(bcts, confirmed);
    if bcts != [] && defs != [] {
      var n := |bcts| - 1;
      var prev := ConfirmedDefs(bcts[..n], confirmed);
      ConfirmedInCatalogueOrder(bcts[..n], confirmed);
      if bcts[n].bctId in confirmed {
        assert defs == prev + [bcts[n]];
        assert defs[..|defs| - 1] == prev;
      } else {
        assert defs == prev;
        assert defs[|defs| - 1].bctId in confirmed;
      }
    }
  }

  /** Exactly the confirmed techniques are kept, each as often as the catalogue lists it. */
  lemma {:induction false} ConfirmedDefsMembers(bcts: seq<BctDef>, confirmed: map<string, Confirmation>)
    ensures forall d :: multiset(ConfirmedDefs(bcts, confirmed))[d] == if d.bctId in confirmed then multiset(bcts)[d] else 0
    ensures forall d :: d in ConfirmedDefs(bcts, confirmed) <==> d in bcts && d.bctId in confirmed
    decreases |bcts|
  {
    if bcts != [] {
      var n := |bcts| - 1;
      assert bcts == bcts[..n] + [bcts[n]];
      ConfirmedDefsMembers(bcts[..n], confirmed);
    }
  }

  /** Filtering a catalogue split in two filters each part. */
  lemma {:induction false} ConfirmedDefsConcat(a: seq<BctDef>, b: seq<BctDef>, confirmed: map<string, Confirmation>)
    ensures ConfirmedDefs(a + b, confirmed) == ConfirmedDefs(a, confirmed) + ConfirmedDefs(b, confirmed)
    decreases |b|
  {
    if b == [] {
      assert a + b == a;
    } else {
      var n := |b| - 1;
      assert (a + b)[..|a + b| - 1] == a + b[..n];
      ConfirmedDefsConcat(a, b[..n], confirmed);
    }
  }

  /** The instance for a confirmed technique in slot `slot`. */
  function ConfirmedInstance(encounterId: string, slot: nat, d: BctDef, c: Confirmation): BctRecord {
    var fidelity := c.fidelity.GetOr("not_assessed");
    BctRecord(BctUri(encounterId, slot), d.bctClass, d.bctId, d.practitionerLabel, d.name,
              Fidelity(fidelity, "bcio:Fidelity_" + fidelity), c.notes.GetOr(""), Some(d.auto), None)
  }

  predicate AllConfirmed(defs: seq<BctDef>, confirmed: map<string, Confirmation>) {
    forall i :: 0 <= i < |defs| ==> defs[i].bctId in confirmed
  }

  /** The instances for the confirmed techniques, numbered from slot 1. */
  function TaggedInstances(encounterId: string, defs: seq<BctDef>, confirmed: map<string, Confirmation>): (r: seq<BctRecord>)
    requires AllConfirmed(defs, confirmed)
    ensures |r| == |defs|
    ensures forall i :: 0 <= i < |r| ==> r[i] == ConfirmedInstance(encounterId, i + 1, defs[i], confirmed[defs[i].bctId])
    decreases |defs|
  {
    if defs == [] then []
    else
      var n := |defs| - 1;
      TaggedInstances(encounterId, defs[..n], confirmed) + [ConfirmedInstance(encounterId, n + 1, defs[n], confirmed[defs[n].bctId])]
  }

  /** `referral_data and referral_data.get('was_referral_made')`. */
  predicate ReferralWanted(referral: Option<Referral>) {
    referral.Some? && referral.value.wasReferralMade
  }

  /** `any('BCT_12.5' in b['bct_id'] for b in bct_instances)`: a substring test, not equality. */
  predicate HasReferralBct(instances: seq<BctRecord>) {
    exists i | 0 <= i < |instances| :: Contains(instances[i].bctId, REFERRAL_BCT_ID)
  }

  /** The notes of the added referral instance, in either copy's format. */
  function ReferralNotes(referral: Referral, style: NotesStyle): string {
    var head := "Referral to " + referral.category.GetOr("unspecified");
    match style
    case CategoryAndDestination => head + ": " + referral.destination.GetOr("")
    case CategoryOnly => head
  }

  /** The synthetic BCT 12.5 instance added for a referral. */
  function ReferralInstance(encounterId: string, slot: nat, referral: Referral, style: NotesStyle): BctRecord {
    BctRecord(BctUri(encounterId, slot), "BCIO:007156", REFERRAL_BCT_ID,
              "Provide referral information or connection", "Adding objects to the environment",
              Fidelity("delivered", "bcio:Fidelity_delivered"), ReferralNotes(referral, style),
              Some(true), Some(referral))
  }

  /** Some confirmed technique's id contains "BCT_12.5". */
  predicate ConfirmsReferral(defs: seq<BctDef>) {
    exists i :: 0 <= i < |defs| && Contains(defs[i].bctId, REFERRAL_BCT_ID)
  }

  /** Whether tagging adds the referral instance after the confirmed ones. */
  predicate Injects(tagged: seq<BctRecord>, referral: Option<Referral>) {
    ReferralWanted(referral) && !HasReferralBct(tagged)
  }

  /** What `auto_tag_encounter` returns. */
  function AutoTagged(catalog: Catalog, encounterId: string, protocolId: string,
                      confirmed: map<string, Confirmation>, referral: Option<Referral>, style: NotesStyle): seq<BctRecord>
  {
    WithReferral(TaggedInstances(encounterId, ConfirmedDefs(ProtocolBcts(catalog, protocolId), confirmed), confirmed),
                 encounterId, referral, style)
  }

  /** The tagged list, followed by the referral instance in the next slot when it is injected. */
  function WithReferral(tagged: seq<BctRecord>, encounterId: string, referral: Option<Referral>, style: NotesStyle): seq<BctRecord> {
    if Injects(tagged, referral) then tagged + [ReferralInstance(encounterId, |tagged| + 1, referral.value, style)]
    else tagged
  }

  /**
   * `auto_tag_encounter`: walks the protocol's techniques, numbering the confirmed ones with a
   * running slot counter, then adds the referral technique when it is wanted and missing.
   */
  method AutoTag(catalog: Catalog, encounterId: string, protocolId: string,
                 confirmed: map<string, Confirmation>, referral: Option<Referral>, style: NotesStyle)
    returns (instances: seq<BctRecord>)
    ensures instances == AutoTagged(catalog, encounterId, protocolId, confirmed, referral, style)
  {
    var bcts := if protocolId in catalog then catalog[protocolId].bcts else [];
    instances := TagConfirmed(encounterId, bcts, confirmed);
    assert bcts == ProtocolBcts(catalog, protocolId);
    assert AutoTagged(catalog, encounterId, protocolId, confirmed, referral, style) == WithReferral(instances, encounterId, referral, style);
    var bctIndex := |instances|;
    if Injects(instances, referral) {
      bctIndex := bctIndex + 1;
      instances := instances + [ReferralInstance(encounterId, bctIndex, referral.value, style)];
    }
  }

  /**
   * The loop of `auto_tag_encounter`: walks the protocol's techniques and numbers the confirmed
   * ones with the running slot counter `bct_index`.
   */
  method TagConfirmed(encounterId: string, bcts: seq<BctDef>, confirmed: map<string, Confirmation>)
    returns (instances: seq<BctRecord>)
    ensures instances == TaggedInstances(encounterId, ConfirmedDefs(bcts, confirmed), confirmed)
  {
    instances := [];
    var bctIndex := 0;
    for k := 0 to |bcts|
      invariant bctIndex == |instances|
      invariant instances == TaggedInstances(encounterId, ConfirmedDefs(bcts[..k], confirmed), confirmed)
    {
      var d := bcts[k];
      TaggedStep(encounterId, bcts, k, confirmed);
      if d.bctId in confirmed {
        bctIndex := bctIndex + 1;
        var fidelity := confirmed[d.bctId].fidelity.GetOr("not_assessed");
        var notes := confirmed[d.bctId].notes.GetOr("");
        instances := instances + [BctRecord(BctUri(encounterId, bctIndex), d.bctClass, d.bctId,
                                            d.practitionerLabel, d.name,
                                            Fidelity(fidelity, "bcio:Fidelity_" + fidelity),
                                            notes, Some(d.auto), None)];
      }
    }
    assert bcts[..|bcts|] == bcts;
  }

  /** One more catalogue technique adds its instance, in the next slot, exactly when it was confirmed. */
  lemma TaggedStep(encounterId: string, bcts: seq<BctDef>, k: nat, confirmed: map<string, Confirmation>)
    requires k < |bcts|
    ensures var prev := TaggedInstances(encounterId, ConfirmedDefs(bcts[..k], confirmed), confirmed);
            var next := TaggedInstances(encounterId, ConfirmedDefs(bcts[..k + 1], confirmed), confirmed);
            var d := bcts[k];
            next == if d.bctId in confirmed then prev + [ConfirmedInstance(encounterId, |prev| + 1, d, confirmed[d.bctId])]
                    else prev
  {
    assert bcts[..k + 1][..k] == bcts[..k];
    var defs := ConfirmedDefs(bcts[..k + 1], confirmed);
    var before := ConfirmedDefs(bcts[..k], confirmed);
    if bcts[k].bctId in confirmed {
      assert defs == before + [bcts[k]];
      assert defs[..|defs| - 1] == before;
    }
  }

  // ---------------------------------------------------------------------------------------
  // What the tagged list is
  // ---------------------------------------------------------------------------------------

  /**
   * The shape of a tagged list: the confirmed techniques `defs` in slots 1..|defs|, then the
   * referral instance exactly when a referral was made and no confirmed id contains "BCT_12.5".
   */
  ghost predicate Tags(r: seq<BctRecord>, encounterId: string, defs: seq<BctDef>, confirmed: map<string, Confirmation>,
                       referral: Option<Referral>, style: NotesStyle)
  {
    && AllConfirmed(defs, confirmed)
    && |defs| <= |r| <= |defs| + 1
    && (forall i :: 0 <= i < |defs| ==> r[i] == ConfirmedInstance(encounterId, i + 1, defs[i], confirmed[defs[i].bctId]))
    && (|r| == |defs| + 1 <==> ReferralWanted(referral) && !ConfirmsReferral(defs))
    && (|r| == |defs| + 1 ==> r[|defs|] == ReferralInstance(encounterId, |defs| + 1, referral.value, style))
  }

  /** The duplicate check on the tagged list reads the confirmed ids. */
  lemma HasReferralBctIds(tagged: seq<BctRecord>, defs: seq<BctDef>)
    requires |tagged| == |defs|
    requires forall i :: 0 <= i < |tagged| ==> tagged[i].bctId == defs[i].bctId
    ensures HasReferralBct(tagged) <==> ConfirmsReferral(defs)
  {
    if HasReferralBct(tagged) {
      var i :| 0 <= i < |tagged| && Contains(tagged[i].bctId, REFERRAL_BCT_ID);
      assert Contains(defs[i].bctId, REFERRAL_BCT_ID);
    }
    if ConfirmsReferral(defs) {
      var i :| 0 <= i < |defs| && Contains(defs[i].bctId, REFERRAL_BCT_ID);
      assert Contains(tagged[i].bctId, REFERRAL_BCT_ID);
    }
  }

  lemma AutoTaggedTags(catalog: Catalog, encounterId: string, protocolId: string,
                       confirmed: map<string, Confirmation>, referral: Option<Referral>, style: NotesStyle)
    ensures Tags(AutoTagged(catalog, encounterId, protocolId, confirmed, referral, style), encounterId,
                 ConfirmedDefs(ProtocolBcts(catalog, protocolId), confirmed), confirmed, referral, style)
  {
    var defs := ConfirmedDefs(ProtocolBcts(catalog, protocolId), confirmed);
    TaggedThenReferral(AutoTagged(catalog, encounterId, protocolId, confirmed, referral, style),
                       encounterId, defs, confirmed, referral, style);
  }

  /** The confirmed instances, followed by the referral instance when it is injected, have the shape `Tags`. */
  lemma TaggedThenReferral(r: seq<BctRecord>, encounterId: string, defs: seq<BctDef>, confirmed: map<string, Confirmation>,
                           referral: Option<Referral>, style: NotesStyle)
    requires AllConfirmed(defs, confirmed)
    requires var tagged := TaggedInstances(encounterId, defs, confirmed);
             r == WithReferral(tagged, encounterId, referral, style)
    ensures Tags(r, encounterId, defs, confirmed, referral, style)
  {
    var tagged := TaggedInstances(encounterId, defs, confirmed);
    HasReferralBctIds(tagged, defs);
    if Injects(tagged, referral) {
      assert forall i :: 0 <= i < |defs| ==> r[i] == tagged[i];
    }
  }

  lemma TagsCarryCatalogue(r: seq<BctRecord>, encounterId: string, defs: seq<BctDef>, confirmed: map<string, Confirmation>,
                           referral: Option<Referral>, style: NotesStyle)
    requires Tags(r, encounterId, defs, confirmed, referral, style)
    ensures forall i :: 0 <= i < |defs| ==>
              && r[i].bctId == defs[i].bctId && r[i].bctClass == defs[i].bctClass
              && r[i].practitionerLabel == defs[i].practitionerLabel && r[i].formalLabel == defs[i].name
              && r[i].autoTagged == Some(defs[i].auto) && r[i].referralContext == None
  {
  }

  /**
   * Exactly the confirmed catalogue techniques come first, in catalogue order, each carrying
   * its catalogue class, labels and `auto` flag; at most one instance follows them.
   */
  lemma AutoTagInstantiatesConfirmed(catalog: Catalog, encounterId: string, protocolId: string,
                                     confirmed: map<string, Confirmation>, referral: Option<Referral>, style: NotesStyle)
    ensures var r := AutoTagged(catalog, encounterId, protocolId, confirmed, referral, style);
            var defs := ConfirmedDefs(ProtocolBcts(catalog, protocolId), confirmed);
            && Subsequence(defs, ProtocolBcts(catalog, protocolId))
            && |defs| <= |r| <= |defs| + 1
            && forall i :: 0 <= i < |defs| ==>
                 && r[i].bctId == defs[i].bctId && r[i].bctClass == defs[i].bctClass
                 && r[i].practitionerLabel == defs[i].practitionerLabel && r[i].formalLabel == defs[i].name
                 && r[i].autoTagged == Some(defs[i].auto) && r[i].referralContext == None
  {
    ConfirmedInCatalogueOrder(ProtocolBcts(catalog, protocolId), confirmed);
    AutoTaggedTags(catalog, encounterId, protocolId, confirmed, referral, style);
    TagsCarryCatalogue(AutoTagged(catalog, encounterId, protocolId, confirmed, referral, style), encounterId,
                       ConfirmedDefs(ProtocolBcts(catalog, protocolId), confirmed), confirmed, referral, style);
  }

  lemma TagsSlots(r: seq<BctRecord>, encounterId: string, defs: seq<BctDef>, confirmed: map<string, Confirmation>,
                  referral: Option<Referral>, style: NotesStyle)
    requires Tags(r, encounterId, defs, confirmed, referral, style)
    ensures forall i :: 0 <= i < |r| ==> r[i].instanceUri == BctUri(encounterId, i + 1)
    ensures forall i, j :: 0 <= i < j < |r| ==> r[i].instanceUri != r[j].instanceUri
  {
    forall i | 0 <= i < |r|
      ensures r[i].instanceUri == BctUri(encounterId, i + 1)
    {
      if i < |defs| {
        assert r[i] == ConfirmedInstance(encounterId, i + 1, defs[i], confirmed[defs[i].bctId]);
      }
    }
    forall i, j | 0 <= i < j < |r|
      ensures r[i].instanceUri != r[j].instanceUri
    {
      if r[i].instanceUri == r[j].instanceUri {
        BctUriInjective(encounterId, i + 1, j + 1);
      }
    }
  }

  /** Slots run 1..n without gaps, across confirmed and added instances, so URIs are distinct. */
  lemma AutoTagSlotsContiguous(catalog: Catalog, encounterId: string, protocolId: string,
                               confirmed: map<string, Confirmation>, referral: Option<Referral>, style: NotesStyle)
    ensures var r := AutoTagged(catalog, encounterId, protocolId, confirmed, referral, style);
            && (forall i :: 0 <= i < |r| ==> r[i].instanceUri == BctUri(encounterId, i + 1))
            && (forall i, j :: 0 <= i < j < |r| ==> r[i].instanceUri != r[j].instanceUri)
  {
    AutoTaggedTags(catalog, encounterId, protocolId, confirmed, referral, style);
    TagsSlots(AutoTagged(catalog, encounterId, protocolId, confirmed, referral, style), encounterId,
              ConfirmedDefs(ProtocolBcts(catalog, protocolId), confirmed), confirmed, referral, style);
  }

  lemma TagsFidelity(r: seq<BctRecord>, encounterId: string, defs: seq<BctDef>, confirmed: map<string, Confirmation>,
                     referral: Option<Referral>, style: NotesStyle)
    requires Tags(r, encounterId, defs, confirmed, referral, style)
    ensures forall i :: 0 <= i < |defs| ==>
              && r[i].fidelity.value == confirmed[defs[i].bctId].fidelity.GetOr("not_assessed")
              && r[i].notes == confirmed[defs[i].bctId].notes.GetOr("")
    ensures forall i :: 0 <= i < |r| ==> r[i].fidelity.qualityType == "bcio:Fidelity_" + r[i].fidelity.value
  {
    forall i | 0 <= i < |r|
      ensures r[i].fidelity.qualityType == "bcio:Fidelity_" + r[i].fidelity.value
    {
      if i < |defs| {
        assert r[i] == ConfirmedInstance(encounterId, i + 1, defs[i], confirmed[defs[i].bctId]);
      }
    }
  }

  /**
   * A confirmed technique takes the practitioner's fidelity, or "not_assessed", and notes, or "";
   * every instance's quality type is "bcio:Fidelity_" followed by its fidelity value.
   */
  lemma AutoTagFidelity(catalog: Catalog, encounterId: string, protocolId: string,
                        confirmed: map<string, Confirmation>, referral: Option<Referral>, style: NotesStyle)
    ensures var r := AutoTagged(catalog, encounterId, protocolId, confirmed, referral, style);
            var defs := ConfirmedDefs(ProtocolBcts(catalog, protocolId), confirmed);
            && (forall i :: 0 <= i < |defs| ==>
                  && r[i].fidelity.value == confirmed[defs[i].bctId].fidelity.GetOr("not_assessed")
                  && r[i].notes == confirmed[defs[i].bctId].notes.GetOr(""))
            && (forall i :: 0 <= i < |r| ==> r[i].fidelity.qualityType == "bcio:Fidelity_" + r[i].fidelity.value)
  {
    AutoTaggedTags(catalog, encounterId, protocolId, confirmed, referral, style);
    TagsFidelity(AutoTagged(catalog, encounterId, protocolId, confirmed, referral, style), encounterId,
                 ConfirmedDefs(ProtocolBcts(catalog, protocolId), confirmed), confirmed, referral, style);
  }

  lemma TagsReferral(r: seq<BctRecord>, encounterId: string, defs: seq<BctDef>, confirmed: map<string, Confirmation>,
                     referral: Option<Referral>, style: NotesStyle)
    requires Tags(r, encounterId, defs, confirmed, referral, style)
    ensures ReferralWanted(referral) ==> HasReferralBct(r)
  {
    if ReferralWanted(referral) {
      if |r| == |defs| + 1 {
        assert r[|defs|].bctId == REFERRAL_BCT_ID;
        assert StartsWith(REFERRAL_BCT_ID, REFERRAL_BCT_ID);
        assert Contains(r[|defs|].bctId, REFERRAL_BCT_ID);
      } else {
        var i :| 0 <= i < |defs| && Contains(defs[i].bctId, REFERRAL_BCT_ID);
        assert r[i] == ConfirmedInstance(encounterId, i + 1, defs[i], confirmed[defs[i].bctId]);
      }
    }
  }

  /**
   * One referral instance is added exactly when a referral was made and no confirmed
   * technique's id contains "BCT_12.5"; it is BCT 12.5 delivered, auto-tagged, with the copy's
   * notes. Either way, after a referral the list holds a BCT 12.5 technique.
   */
  lemma AutoTagReferral(catalog: Catalog, encounterId: string, protocolId: string,
                        confirmed: map<string, Confirmation>, referral: Option<Referral>, style: NotesStyle)
    ensures var r := AutoTagged(catalog, encounterId, protocolId, confirmed, referral, style);
            var defs := ConfirmedDefs(ProtocolBcts(catalog, protocolId), confirmed);
            var added := ReferralWanted(referral) && !ConfirmsReferral(defs);
            && (|r| == |defs| + 1 <==> added)
            && (added ==> r[|defs|] == ReferralInstance(encounterId, |defs| + 1, referral.value, style))
            && (ReferralWanted(referral) ==> HasReferralBct(r))
  {
    AutoTaggedTags(catalog, encounterId, protocolId, confirmed, referral, style);
    TagsReferral(AutoTagged(catalog, encounterId, protocolId, confirmed, referral, style), encounterId,
                 ConfirmedDefs(ProtocolBcts(catalog, protocolId), confirmed), confirmed, referral, style);
  }

  /**
   * A protocol that lists BCT 12.5 first, and nowhere else, yields exactly one BCT 12.5 instance
   * when that technique is confirmed: the catalogue's own, in slot 1, whatever the referral.
   */
  lemma ListedReferralNotDuplicated(catalog: Catalog, encounterId: string, protocolId: string,
                                    confirmed: map<string, Confirmation>, referral: Option<Referral>, style: NotesStyle)
    requires protocolId in catalog
    requires var bcts := catalog[protocolId].bcts;
             |bcts| >= 1 && bcts[0].bctId == REFERRAL_BCT_ID
             && forall j :: 1 <= j < |bcts| ==> bcts[j].bctId != REFERRAL_BCT_ID
    requires REFERRAL_BCT_ID in confirmed
    ensures var r := AutoTagged(catalog, encounterId, protocolId, confirmed, referral, style);
            && |r| >= 1
            && r[0].bctId == REFERRAL_BCT_ID && r[0].referralContext == None
            && r[0].autoTagged == Some(catalog[protocolId].bcts[0].auto)
            && forall j :: 1 <= j < |r| ==> r[j].bctId != REFERRAL_BCT_ID
  {
    var bcts := catalog[protocolId].bcts;
    var defs := ConfirmedDefs(bcts, confirmed);
    ListedFirstConfirmedFirst(bcts, confirmed, REFERRAL_BCT_ID);
    FirstContains(defs, REFERRAL_BCT_ID);
    AutoTaggedTags(catalog, encounterId, protocolId, confirmed, referral, style);
    TagsReferralFirst(AutoTagged(catalog, encounterId, protocolId, confirmed, referral, style),
                      encounterId, defs, confirmed, referral, style);
  }

  /** A catalogue listing a confirmed technique first and only there keeps it first and only there. */
  lemma ListedFirstConfirmedFirst(bcts: seq<BctDef>, confirmed: map<string, Confirmation>, id: string)
    requires |bcts| >= 1 && bcts[0].bctId == id
    requires forall j :: 1 <= j < |bcts| ==> bcts[j].bctId != id
    requires id in confirmed
    ensures var defs := ConfirmedDefs(bcts, confirmed);
            && |defs| >= 1 && defs[0] == bcts[0]
            && forall j :: 1 <= j < |defs| ==> defs[j].bctId != id
  {
    assert bcts == [bcts[0]] + bcts[1..];
    ConfirmedDefsConcat([bcts[0]], bcts[1..], confirmed);
    assert [bcts[0]][..0] == [];
    assert ConfirmedDefs([bcts[0]], confirmed) == [bcts[0]];
    var rest := ConfirmedDefs(bcts[1..], confirmed);
    ConfirmedDefsMembers(bcts[1..], confirmed);
    forall j | 0 <= j < |rest|
      ensures rest[j].bctId != id
    {
      assert rest[j] in bcts[1..];
    }
    ConsAvoids(ConfirmedDefs(bcts, confirmed), bcts[0], rest, id);
  }

  lemma ConsAvoids(defs: seq<BctDef>, head: BctDef, rest: seq<BctDef>, id: string)
    requires defs == [head] + rest
    requires forall j :: 0 <= j < |rest| ==> rest[j].bctId != id
    ensures forall j :: 1 <= j < |defs| ==> defs[j].bctId != id
  {
    forall j | 1 <= j < |defs|
      ensures defs[j].bctId != id
    {
      assert defs[j] == rest[j - 1];
    }
  }

  /** A list whose first technique's id is `id` confirms a technique whose id contains `id`. */
  lemma FirstContains(defs: seq<BctDef>, id: string)
    requires |defs| >= 1 && defs[0].bctId == id
    ensures exists i :: 0 <= i < |defs| && Contains(defs[i].bctId, id)
  {
    assert defs[0].bctId[..|id|] == id;
    assert StartsWith(defs[0].bctId, id);
  }

  /** When the confirmed techniques hold BCT 12.5 first and only there, so does the tagged list. */
  lemma TagsReferralFirst(r: seq<BctRecord>, encounterId: string, defs: seq<BctDef>, confirmed: map<string, Confirmation>,
                          referral: Option<Referral>, style: NotesStyle)
    requires Tags(r, encounterId, defs, confirmed, referral, style)
    requires |defs| >= 1 && defs[0].bctId == REFERRAL_BCT_ID && ConfirmsReferral(defs)
    requires forall j :: 1 <= j < |defs| ==> defs[j].bctId != REFERRAL_BCT_ID
    ensures && |r| >= 1
            && r[0].bctId == REFERRAL_BCT_ID && r[0].referralContext == None
            && r[0].autoTagged == Some(defs[0].auto)
            && forall j :: 1 <= j < |r| ==> r[j].bctId != REFERRAL_BCT_ID
  {
    assert |r| == |defs|;
    TagsCarryCatalogue(r, encounterId, defs, confirmed, referral, style);
  }

  /** An unknown protocol contributes no technique: only the referral instance can appear. */
  lemma UnknownProtocolTagsNothing(catalog: Catalog, encounterId: string, protocolId: string,
                                   confirmed: map<string, Confirmation>, referral: Option<Referral>, style: NotesStyle)
    requires protocolId !in catalog
    ensures AutoTagged(catalog, encounterId, protocolId, confirmed, referral, style)
            == if ReferralWanted(referral) then [ReferralInstance(encounterId, 1, referral.value, style)] else []
  {
    assert !HasReferralBct([]);
  }

  /** Confirmations of techniques outside the protocol change nothing. */
  lemma {:induction false} ConfirmedDefsIgnoreOthers(bcts: seq<BctDef>, c1: map<string, Confirmation>, c2: map<string, Confirmation>)
    requires forall i :: 0 <= i < |bcts| ==> (bcts[i].bctId in c1 <==> bcts[i].bctId in c2)
    ensures ConfirmedDefs(bcts, c1) == ConfirmedDefs(bcts, c2)
    decreases |bcts|
  {
    if bcts != [] {
      ConfirmedDefsIgnoreOthers(bcts[..|bcts| - 1], c1, c2);
    }
  }

  /** Only the confirmations of the techniques being tagged are read. */
  lemma TaggedInstancesAgree(encounterId: string, defs: seq<BctDef>, c1: map<string, Confirmation>, c2: map<string, Confirmation>)
    requires AllConfirmed(defs, c1) && AllConfirmed(defs, c2)
    requires forall i :: 0 <= i < |defs| ==> c1[defs[i].bctId] == c2[defs[i].bctId]
    ensures TaggedInstances(encounterId, defs, c1) == TaggedInstances(encounterId, defs, c2)
  {
  }

  /** Unknown confirmations contribute nothing: only the protocol's own ids are looked up. */
  lemma AutoTagIgnoresUnknownConfirmations(catalog: Catalog, encounterId: string, protocolId: string,
                                           c1: map<string, Confirmation>, c2: map<string, Confirmation>,
                                           referral: Option<Referral>, style: NotesStyle)
    requires var bcts := ProtocolBcts(catalog, protocolId);
             forall i :: 0 <= i < |bcts| ==>
               (bcts[i].bctId in c1 <==> bcts[i].bctId in c2)
               && (bcts[i].bctId in c1 ==> c1[bcts[i].bctId] == c2[bcts[i].bctId])
    ensures AutoTagged(catalog, encounterId, protocolId, c1, referral, style)
            == AutoTagged(catalog, encounterId, protocolId, c2, referral, style)
  {
    var bcts := ProtocolBcts(catalog, protocolId);
    ConfirmedDefsIgnoreOthers(bcts, c1, c2);
    var defs := ConfirmedDefs(bcts, c1);
    forall i | 0 <= i < |defs|
      ensures c1[defs[i].bctId] == c2[defs[i].bctId]
    {
      ConfirmedDefsMembers(bcts, c1);
      assert defs[i] in defs;
    }
    TaggedInstancesAgree(encounterId, defs, c1, c2);
  }

  /**
   * The duplicate check is a substring test: a confirmed technique whose id merely contains
   * "BCT_12.5" (such as "BCT_12.55") suppresses the referral technique.
   */
  lemma SubstringSuppressesReferral(encounterId: string, referral: Referral, style: NotesStyle)
    requires referral.wasReferralMade
    ensures var d := BctDef("BCT_12.55", "Other", "Other", false, "BCIO:000000");
            var catalog := map["p" := Protocol("P", [d])];
            var confirmed := map["BCT_12.55" := Confirmation(None, None)];
            var r := AutoTagged(catalog, encounterId, "p", confirmed, Some(referral), style);
            |r| == 1 && r[0].bctId != REFERRAL_BCT_ID
  {
    var d := BctDef("BCT_12.55", "Other", "Other", false, "BCIO:000000");
    var confirmed := map["BCT_12.55" := Confirmation(None, None)];
    assert [d][..0] == [];
    assert ConfirmedDefs([d], confirmed) == [d];
    assert StartsWith("BCT_12.55", REFERRAL_BCT_ID);
    assert Contains("BCT_12.55", REFERRAL_BCT_ID);
  }

  // ---------------------------------------------------------------------------------------
  // Submission in encounter_app.py
  // ---------------------------------------------------------------------------------------

  datatype SubmitError = UnknownProtocol(protocolId: string)

  /**
   * The tagging part of `submit_encounter` in `encounter_app.py`: the protocol's label is looked
   * up first (a `KeyError` for an unknown protocol), then the confirmed techniques are tagged
   * and `num_bcts` records how many instances there are.
   */
  method SubmitEncounterBcts(catalog: Catalog, encounterId: string, protocolId: string,
                             confirmed: map<string, Confirmation>, referral: Option<Referral>)
    returns (r: Result<(seq<BctRecord>, nat), SubmitError>)
    ensures r.Failure? <==> protocolId !in catalog
    ensures r.Success? ==> r.value.0 == AutoTagged(catalog, encounterId, protocolId, confirmed, referral, CategoryOnly)
    ensures r.Success? ==> r.value.1 == |r.value.0| <= |catalog[protocolId].bcts| + 1
  {
    if protocolId !in catalog {
      return Failure(UnknownProtocol(protocolId));
    }
    var bcts := AutoTag(catalog, encounterId, protocolId, confirmed, referral, CategoryOnly);
    AutoTagInstantiatesConfirmed(catalog, encounterId, protocolId, confirmed, referral, CategoryOnly);
    r := Success((bcts, |bcts|));
  }
}
