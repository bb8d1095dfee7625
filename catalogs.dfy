/**
 * The protocol catalogues the two auto-tagging copies read, as written in `app_enhanced.py`
 * and `encounter_app.py`, and what tagging does with one of their protocols.
 */
module Catalogs {
  import opened Wrappers
  import opened Strings
  import opened Records
  import opened Tagging

  const ENHANCED_EMPLOYMENT_SUPPORT_V1 := Protocol("Employment Support Protocol v1.0", [
    BctDef("BCT_1.1", "Goal setting (behaviour)",
           "Help participant set specific employment goals", true, "bcio:0000001"),
    BctDef("BCT_1.4", "Action planning",
           "Create concrete action plan for job search", true, "bcio:0000002"),
    BctDef("BCT_1.2", "Problem solving",
           "Work through barriers and solutions", false, "bcio:0000003"),
    BctDef("BCT_3.1", "Social support (practical)",
           "Arrange practical job search support", false, "bcio:0000004")])

  const ENHANCED_HOUSING_ACTION_PLANNING := Protocol("Housing Action Planning Session", [
    BctDef("BCT_1.1", "Goal setting (behavior)",
           "Help participant set specific housing goals", true, "BCIO:007004"),
    BctDef("BCT_1.4", "Action planning",
           "Create action plan together", true, "BCIO:007010"),
    BctDef("BCT_3.2", "Social support (practical)",
           "Arrange practical support from others", false, "BCIO:007030"),
    BctDef("BCT_12.5", "Adding objects to the environment",
           "Provide resources or materials", false, "BCIO:007156")])

  const ENHANCED_SUBSTANCE_USE_BRIEF_INTERVENTION := Protocol("Substance Use Brief Intervention", [
    BctDef("BCT_5.1", "Information about health consequences",
           "Discuss health impacts of substance use", true, "BCIO:007054"),
    BctDef("BCT_5.3", "Information about social/environmental consequences",
           "Discuss how substance use affects life circumstances", true, "BCIO:007056"),
    BctDef("BCT_13.2", "Framing/reframing",
           "Help see situation from different perspective", false, "BCIO:007174"),
    BctDef("BCT_9.2", "Pros and cons",
           "Explore benefits and drawbacks together", true, "BCIO:007100")])

  const ENHANCED_BENEFITS_NAVIGATION := Protocol("Benefits Navigation Support", [
    BctDef("BCT_4.1", "Instruction on how to perform behavior",
           "Give step-by-step instructions", true, "BCIO:007037"),
    BctDef("BCT_3.2", "Social support (practical)",
           "Provide hands-on assistance", true, "BCIO:007030"),
    BctDef("BCT_12.5", "Adding objects to the environment",
           "Provide forms, documents, contact info", true, "BCIO:007156")])

  const ENHANCED_CHECK_IN := Protocol("Progress Check-in Session", [
    BctDef("BCT_1.5", "Review behavior goals",
           "Check progress on previous goals", true, "BCIO:007013"),
    BctDef("BCT_3.3", "Social support (emotional)",
           "Provide encouragement and emotional support", true, "BCIO:007031")])

  /** `PROTOCOL_CATALOG` of `app_enhanced.py`. */
  const ENHANCED_CATALOG: Catalog := map[
    "employment_support_v1" := ENHANCED_EMPLOYMENT_SUPPORT_V1,
    "housing_action_planning" := ENHANCED_HOUSING_ACTION_PLANNING,
    "substance_use_brief_intervention" := ENHANCED_SUBSTANCE_USE_BRIEF_INTERVENTION,
    "benefits_navigation" := ENHANCED_BENEFITS_NAVIGATION,
    "check_in" := ENHANCED_CHECK_IN]

  const ENCOUNTER_APP_HOUSING_ACTION_PLANNING := Protocol("Housing Action Planning Session", [
    BctDef("BCT_1.1", "Goal setting (behavior)",
           "Help participant set specific housing goals", true, "BCIO:007004"),
    BctDef("BCT_1.4", "Action planning",
           "Create action plan together", true, "BCIO:007010"),
    BctDef("BCT_3.2", "Social support (practical)",
           "Arrange practical support from others", false, "BCIO:007030"),
    BctDef("BCT_12.5", "Adding objects to the environment",
           "Provide resources or materials", false, "BCIO:007156")])

  const ENCOUNTER_APP_SUBSTANCE_USE_BRIEF_INTERVENTION := Protocol("Substance Use Brief Intervention", [
    BctDef("BCT_5.1", "Information about health consequences",
           "Discuss health impacts of substance use", true, "BCIO:007054"),
    BctDef("BCT_5.3", "Information about social/environmental consequences",
           "Discuss how substance use affects life circumstances", true, "BCIO:007056"),
    BctDef("BCT_13.2", "Framing/reframing",
           "Help see situation from different perspective", false, "BCIO:007174"),
    BctDef("BCT_9.2", "Pros and cons",
           "Explore benefits and drawbacks together", true, "BCIO:007100"),
    BctDef("BCT_1.5", "Review behavior goals",
           "Check progress on previous goals", false, "BCIO:007013")])

  const ENCOUNTER_APP_BENEFITS_NAVIGATION := Protocol("Benefits Navigation Support", [
    BctDef("BCT_4.1", "Instruction on how to perform behavior",
           "Give step-by-step instructions", true, "BCIO:007037"),
    BctDef("BCT_3.2", "Social support (practical)",
           "Provide hands-on assistance", true, "BCIO:007030"),
    BctDef("BCT_12.5", "Adding objects to the environment",
           "Provide forms or documentation", false, "BCIO:007156"),
    BctDef("BCT_8.7", "Graded tasks",
           "Break application process into smaller steps", false, "BCIO:007091")])

  const ENCOUNTER_APP_CRISIS_INTERVENTION := Protocol("Crisis De-escalation", [
    BctDef("BCT_3.1", "Social support (unspecified)",
           "Provide emotional support and presence", true, "BCIO:007029"),
    BctDef("BCT_11.2", "Reduce negative emotions",
           "Help calm and manage distress", true, "BCIO:007127"),
    BctDef("BCT_15.1", "Verbal persuasion about capability",
           "Build confidence they can get through this", false, "BCIO:007194"),
    BctDef("BCT_12.5", "Adding objects to the environment",
           "Connect to crisis resources", false, "BCIO:007156")])

  const ENCOUNTER_APP_PEER_SUPPORT_CHECKIN := Protocol("Peer Support Check-in", [
    BctDef("BCT_3.1", "Social support (unspecified)",
           "Provide supportive presence and listening", true, "BCIO:007029"),
    BctDef("BCT_1.5", "Review behavior goals",
           "Check in on progress toward goals", false, "BCIO:007013"),
    BctDef("BCT_10.9", "Self-reward",
           "Encourage celebrating successes", false, "BCIO:007119"),
    BctDef("BCT_15.3", "Focus on past success",
           "Remind of past achievements", false, "BCIO:007196")])

  const ENCOUNTER_APP_REFERRAL_PROVISION := Protocol("Referral to External Service", [
    BctDef("BCT_12.5", "Adding objects to the environment",
           "Provide referral information or connection", true, "BCIO:007156"),
    BctDef("BCT_3.2", "Social support (practical)",
           "Arrange connection to service", true, "BCIO:007030"),
    BctDef("BCT_4.1", "Instruction on how to perform behavior",
           "Explain how to access the service", false, "BCIO:007037")])

  /** `PROTOCOL_CATALOG` of `encounter_app.py`. */
  const ENCOUNTER_APP_CATALOG: Catalog := map[
    "housing_action_planning" := ENCOUNTER_APP_HOUSING_ACTION_PLANNING,
    "substance_use_brief_intervention" := ENCOUNTER_APP_SUBSTANCE_USE_BRIEF_INTERVENTION,
    "benefits_navigation" := ENCOUNTER_APP_BENEFITS_NAVIGATION,
    "crisis_intervention" := ENCOUNTER_APP_CRISIS_INTERVENTION,
    "peer_support_checkin" := ENCOUNTER_APP_PEER_SUPPORT_CHECKIN,
    "referral_provision" := ENCOUNTER_APP_REFERRAL_PROVISION]

  /**
   * In `encounter_app.py`, the referral protocol lists BCT 12.5 itself: when it is confirmed, a
   * referral adds no second BCT 12.5, and the one instance is the catalogue's, in slot 1.
   */
  lemma ReferralProvisionAddsNoSecond(encounterId: string, confirmed: map<string, Confirmation>, referral: Option<Referral>)
    requires REFERRAL_BCT_ID in confirmed
    ensures var r := AutoTagged(ENCOUNTER_APP_CATALOG, encounterId, "referral_provision", confirmed, referral, CategoryOnly);
            && |r| >= 1
            && r[0].bctId == REFERRAL_BCT_ID && r[0].referralContext == None && r[0].autoTagged == Some(true)
            && forall j :: 1 <= j < |r| ==> r[j].bctId != REFERRAL_BCT_ID
  {
    assert ENCOUNTER_APP_CATALOG["referral_provision"] == ENCOUNTER_APP_REFERRAL_PROVISION;
    ListedReferralNotDuplicated(ENCOUNTER_APP_CATALOG, encounterId, "referral_provision", confirmed, referral, CategoryOnly);
  }
}
