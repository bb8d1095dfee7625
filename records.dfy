/**
 * The dictionaries the web applications hand to the graph builders, as records.
 * A key that may be missing is an `Option`; a text field whose absence and emptiness the
 * code treats alike (both are falsy) is a plain string, with "" standing for "absent".
 */
module Records {
  import opened Wrappers

  /** The `fidelity` entry of a BCT record. */
  datatype Fidelity = Fidelity(value: string, qualityType: string)

  /** The referral part of an encounter form: whether one was made, and where to. */
  datatype Referral = Referral(wasReferralMade: bool, category: Option<string>, destination: Option<string>)

  /** A BCT instance as produced by auto-tagging and consumed by `add_bct_instance`. */
  datatype BctRecord = BctRecord(
    instanceUri: string,
    bctClass: string,
    bctId: string,
    practitionerLabel: string,
    formalLabel: string,
    fidelity: Fidelity,
    notes: string,
    autoTagged: Option<bool>,
    referralContext: Option<Referral>)

  /** The encounter record consumed by `add_encounter_instance`; `durationMinutes` is form text. */
  datatype EncounterData = EncounterData(
    encounterUri: string,
    timestamp: string,
    deliveredToUri: string,
    modeOfDelivery: string,
    durationMinutes: string,
    protocolId: string,
    practitionerId: string,
    bcts: seq<BctRecord>,
    encounterNotes: string)

  /** A demographic tag: name, category and a prefixed class id ("" when absent). */
  datatype TagData = TagData(tagName: string, tagCategory: string, bcioId: string)

  /** The participant record consumed by `add_participant_instance`. */
  datatype ParticipantData = ParticipantData(
    participantUri: string,
    participantId: string,
    age: int,
    tags: seq<TagData>,
    createdDate: string)
}
