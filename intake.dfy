/**
 * The participant intake rules of `participant_intake_app.py`: the age computed from a date
 * of birth, and the demographic tags (name, category, prefixed class id) that
 * `generate_bcio_attributes` derives from the intake form, rule by rule.
 */
module Intake {
  import opened Wrappers
  import opened Strings
  import opened Records

  // ---------------------------------------------------------------------------------------
  // calculate_age
  // ---------------------------------------------------------------------------------------

  /** A calendar date as `strptime(..., '%Y-%m-%d')` yields it. */
  datatype Date = Date(year: int, month: int, day: int)

  /** Python's tuple order on (year, month, day). */
  predicate DateBefore(a: Date, b: Date) {
    a.year < b.year || (a.year == b.year && (a.month < b.month || (a.month == b.month && a.day < b.day)))
  }

  /** `calculate_age`, with today's date passed in. */
  function Age(dob: Date, today: Date): int {
    today.year - dob.year
      - (if today.month < dob.month || (today.month == dob.month && today.day < dob.day) then 1 else 0)
  }

  /** The `years`-th birthday of someone born on `dob`. */
  function Birthday(dob: Date, years: int): Date {
    Date(dob.year + years, dob.month, dob.day)
  }

  /**
   * The age is the number of birthdays reached: the age-th birthday is not after today and
   * the next one is. It is one less than the year difference exactly when today's (month, day)
   * comes before the birth (month, day).
   */
  lemma AgeIsBirthdaysReached(dob: Date, today: Date)
    ensures !DateBefore(today, Birthday(dob, Age(dob, today)))
    ensures DateBefore(today, Birthday(dob, Age(dob, today) + 1))
    ensures Age(dob, today) == today.year - dob.year - 1
            <==> today.month < dob.month || (today.month == dob.month && today.day < dob.day)
  {
  }

  // ---------------------------------------------------------------------------------------
  // The intake form and the tag tables
  // ---------------------------------------------------------------------------------------

  /**
   * The `form_data` dict. Text answers the rules only compare or test for truth are strings,
   * "" standing for a missing answer; the supervision status is an `Option` because a missing
   * one behaves differently from any text.
   */
  datatype IntakeForm = IntakeForm(
    age: int,
    gender: string,
    daysSinceRelease: int,
    supervisionStatus: Option<string>,
    housingStatus: string,
    housingType: string,
    substances: seq<string>,
    currentSubstanceUse: string,
    mentalHealth: seq<string>,
    disabilityStatus: string,
    disabilityDuration: string,
    medicationUse: string,
    medicationTypes: seq<string>,
    educationLevel: string,
    relationshipStatus: string,
    employmentStatus: string)

  const TEENAGER := TagData("teenager", "age", "ADDICTO:0001050")
  const YOUNG_ADULT := TagData("young_adult", "age", "BCIO:0000201")
  const ADULT := TagData("adult", "age", "ADDICTO:0000352")
  const EX_OFFENDER := TagData("ex_offender_population", "reentry", "BCIO:0000202")
  const RECENTLY_RELEASED := TagData("recently_released", "reentry", "BCIO:0000203")
  const FIRST_MONTH := TagData("first_month_post_release", "reentry", "BCIO:0000204")
  const UNDER_SUPERVISION := TagData("under_supervision", "reentry", "BCIO:0000205")
  const SUBSTANCE_HISTORY := TagData("substance_use_history_population", "health", "BCIO:0000211")
  const SUBSTANCE_RECOVERY := TagData("substance_use_recovery", "health", "BCIO:0000216")
  const ACTIVE_USE := TagData("active_substance_use", "health", "BCIO:0000217")
  const DISABLED := TagData("disabled", "health", "BCIO:050474")
  const LONG_TERM_DISABLED := TagData("long_term_disabled", "health", "BCIO:050479")
  const MEDICATION_USE := TagData("medication_use_status", "health", "BCIO:015093")
  const EMPLOYED := TagData("employed", "employment", "BCIO:0000220")
  const UNEMPLOYED := TagData("unemployed", "employment", "BCIO:0000221")
  const JOB_SEEKING := TagData("job_seeking", "employment", "BCIO:0000222")
  const UNABLE_TO_WORK := TagData("unable_to_work", "employment", "BCIO:0000223")

  const HOUSING_MAP: map<string, (string, string)> := map[
    "homeless" := ("homeless_population", "BCIO:0000206"),
    "stable" := ("housed_population", "BCIO:0000207"),
    "transitional" := ("transitional_housing_population", "BCIO:0000208"),
    "institutional" := ("institutional_setting_occupant", "BCIO:0000209")]

  const HOUSING_TYPE_MAP: map<string, (string, string)> := map[
    "owns" := ("owner_occupier", "BCIO:015029"),
    "rents_private" := ("renter", "BCIO:015030"),
    "rents_social" := ("renter_from_social_provider", "BCIO:015031"),
    "family" := ("family_household_member", "BCIO:0000210"),
    "employer" := ("employer_provided_housing", "BCIO:015035")]

  const SUBSTANCE_MAP: map<string, (string, string)> := map[
    "alcohol" := ("alcohol_use_history", "BCIO:0000212"),
    "opioids" := ("opioid_use_history", "BCIO:0000213"),
    "stimulants" := ("stimulant_use_history", "BCIO:0000214"),
    "cannabis" := ("cannabis_use_history", "BCIO:0000215")]

  const EDUCATION_MAP: map<string, (string, string)> := map[
    "primary" := ("achieved_primary_education", "BCIO:015046"),
    "lower_secondary" := ("achieved_lower_secondary_education", "BCIO:015047"),
    "upper_secondary" := ("achieved_upper_secondary_education", "BCIO:015048"),
    "bachelors" := ("achieved_bachelors_degree", "BCIO:015049"),
    "masters" := ("achieved_masters_level", "BCIO:015050"),
    "doctoral" := ("achieved_doctoral_level", "BCIO:015051")]

  const RELATIONSHIP_MAP: map<string, (string, string)> := map[
    "single" := ("single", "BCIO:015072"),
    "married" := ("in_legal_marriage", "BCIO:015074"),
    "relationship" := ("in_stable_relationship", "BCIO:015073"),
    "divorced" := ("divorced_or_separated", "BCIO:015075"),
    "widowed" := ("widowed", "BCIO:015076")]

  /** The tag a table entry gives, in a category. */
  function Entry(table: map<string, (string, string)>, key: string, category: string): TagData
    requires key in table
  {
    TagData(table[key].0, category, table[key].1)
  }

  /** The class ids of each table, in the order of its entries. */
  const HOUSING_IDS := {"BCIO:0000206", "BCIO:0000207", "BCIO:0000208", "BCIO:0000209"}
  const HOUSING_TYPE_IDS := {"BCIO:015029", "BCIO:015030", "BCIO:015031", "BCIO:0000210", "BCIO:015035"}
  const SUBSTANCE_IDS := {"BCIO:0000212", "BCIO:0000213", "BCIO:0000214", "BCIO:0000215"}

  /** Every tag of `r` is of category `category`. */
  ghost predicate Tagged(r: seq<TagData>, category: string) {
    forall t :: t in r ==> t.tagCategory == category
  }

  // ---------------------------------------------------------------------------------------
  // The rules, one function each
  // ---------------------------------------------------------------------------------------

  /** Age bands; they overlap. */
  function AgeTags(age: int): (r: seq<TagData>)
    ensures Tagged(r, "age")
  {
    (if 13 <= age <= 19 then [TEENAGER] else [])
    + (if 18 <= age <= 25 then [YOUNG_ADULT] else [])
    + (if age >= 18 then [ADULT] else [])
  }

  function GenderTags(gender: string): (r: seq<TagData>)
    ensures Tagged(r, "gender")
  {
    if gender != "" && gender != "prefer_not_say"
    then [TagData(gender + "_gender", "gender", "PATO:" + gender + "_sex")]
    else []
  }

  /** Release recency: within 90 days, and within 30. */
  function ReleaseTags(days: int): (r: seq<TagData>)
    ensures Tagged(r, "reentry")
    ensures forall t :: t in r ==> t in {RECENTLY_RELEASED, FIRST_MONTH}
  {
    (if days <= 90 then [RECENTLY_RELEASED] else []) + (if days <= 30 then [FIRST_MONTH] else [])
  }

  /** Python's `str` of the supervision status, as the f-string renders it. */
  function StatusText(status: Option<string>): string {
    status.GetOr("None")
  }

  function SupervisionTag(status: string): TagData {
    TagData(status, "reentry", "BCIO:supervision_" + status)
  }

  /** Supervision: any status other than 'none', a missing one included, gives two tags. */
  function SupervisionTags(status: Option<string>): (r: seq<TagData>)
    ensures Tagged(r, "reentry")
    ensures forall t :: t in r ==> t == UNDER_SUPERVISION || StartsWith(t.bcioId, "BCIO:supervision_")
  {
    if status != Some("none")
    then [UNDER_SUPERVISION, SupervisionTag(StatusText(status))]
    else []
  }

  function HousingTags(housing: string): (r: seq<TagData>)
    ensures Tagged(r, "housing")
    ensures forall t :: t in r ==> t.bcioId in HOUSING_IDS
  {
    if housing in HOUSING_MAP then [Entry(HOUSING_MAP, housing, "housing")] else []
  }

  /** The kind of stable housing: only asked when the participant is stably housed. */
  function HousingTypeTags(housing: string, housingType: string): (r: seq<TagData>)
    ensures Tagged(r, "housing")
    ensures forall t :: t in r ==> t.bcioId in HOUSING_TYPE_IDS
    ensures r != [] <==> housing == "stable" && housingType in HOUSING_TYPE_MAP
  {
    if housing == "stable" && housingType != "" && housingType in HOUSING_TYPE_MAP
    then [Entry(HOUSING_TYPE_MAP, housingType, "housing")]
    else []
  }

  /** The loop over the substances: one tag per known substance, in form order. */
  function SubstanceHistories(substances: seq<string>): (r: seq<TagData>)
    ensures Tagged(r, "health")
    ensures forall t :: t in r ==> t.bcioId in SUBSTANCE_IDS
    ensures forall s :: s in substances && s in SUBSTANCE_MAP ==> Entry(SUBSTANCE_MAP, s, "health") in r
    decreases |substances|
  {
    if substances == [] then []
    else
      var n := |substances| - 1;
      SubstanceHistories(substances[..n])
      + (if substances[n] in SUBSTANCE_MAP then [Entry(SUBSTANCE_MAP, substances[n], "health")] else [])
  }

  /** Substance use, only when some substance other than 'none' was ticked. */
  function SubstanceTags(substances: seq<string>, currentUse: string): (r: seq<TagData>)
    ensures Tagged(r, "health")
    ensures forall t :: t in r ==>
              t.bcioId in SUBSTANCE_IDS || t in {SUBSTANCE_HISTORY, SUBSTANCE_RECOVERY, ACTIVE_USE}
    ensures r != [] <==> |substances| > 0 && "none" !in substances
  {
    if |substances| > 0 && "none" !in substances
    then [SUBSTANCE_HISTORY] + SubstanceHistories(substances)
         + (if currentUse == "recovery" then [SUBSTANCE_RECOVERY]
            else if currentUse == "currently_using" then [ACTIVE_USE] else [])
    else []
  }

  function Disclosed(condition: string): TagData {
    TagData("disclosed_" + condition, "health", "DOID:" + condition)
  }

  /** The loop over disclosed conditions; 'none' is skipped. */
  function Disclosures(conditions: seq<string>): (r: seq<TagData>)
    ensures Tagged(r, "health")
    ensures forall t :: t in r ==> StartsWith(t.bcioId, "DOID:")
    ensures forall c :: c in conditions && c != "none" ==> Disclosed(c) in r
    decreases |conditions|
  {
    if conditions == [] then []
    else
      var n := |conditions| - 1;
      var c := conditions[n];
      Disclosures(conditions[..n])
      + (if c != "none" then [Disclosed(c)] else [])
  }

  function MentalHealthTags(conditions: seq<string>): (r: seq<TagData>)
    ensures Tagged(r, "health")
    ensures forall t :: t in r ==> StartsWith(t.bcioId, "DOID:")
  {
    if |conditions| > 0 && "none" !in conditions then Disclosures(conditions) else []
  }

  function DisabilityTags(status: string, duration: string): (r: seq<TagData>)
    ensures Tagged(r, "health")
    ensures forall t :: t in r ==> t in {DISABLED, LONG_TERM_DISABLED}
  {
    if status == "has_disability"
    then [DISABLED] + (if duration == "long_term" then [LONG_TERM_DISABLED] else [])
    else []
  }

  function MedicationTag(medicationType: string): TagData {
    TagData(medicationType + "_medication", "health", "BCIO:med_" + medicationType)
  }

  /** The loop over medication types. */
  function MedicationTypeTags(types: seq<string>): (r: seq<TagData>)
    ensures Tagged(r, "health")
    ensures forall t :: t in r ==> StartsWith(t.bcioId, "BCIO:med_")
    ensures forall m :: m in types ==> MedicationTag(m) in r
    decreases |types|
  {
    if types == [] then []
    else
      var n := |types| - 1;
      MedicationTypeTags(types[..n]) + [MedicationTag(types[n])]
  }

  function MedicationTags(use: string, types: seq<string>): (r: seq<TagData>)
    ensures Tagged(r, "health")
    ensures forall t :: t in r ==> t == MEDICATION_USE || StartsWith(t.bcioId, "BCIO:med_")
  {
    if use == "yes" then [MEDICATION_USE] + MedicationTypeTags(types) else []
  }

  function EducationTags(level: string): (r: seq<TagData>)
    ensures Tagged(r, "education")
  {
    if level in EDUCATION_MAP then [Entry(EDUCATION_MAP, level, "education")] else []
  }

  function RelationshipTags(status: string): (r: seq<TagData>)
    ensures Tagged(r, "relationship")
  {
    if status in RELATIONSHIP_MAP then [Entry(RELATIONSHIP_MAP, status, "relationship")] else []
  }

  function EmploymentTags(employment: string): (r: seq<TagData>)
    ensures Tagged(r, "employment")
  {
    if employment == "full_time" || employment == "part_time" then [EMPLOYED]
    else if employment == "unemployed_seeking" then [UNEMPLOYED, JOB_SEEKING]
    else if employment == "unable" then [UNABLE_TO_WORK]
    else []
  }

  /** All the tags of a form, rule after rule, as `generate_bcio_attributes` appends them. */
  function BcioAttributes(f: IntakeForm): seq<TagData> {
    AgeTags(f.age) + GenderTags(f.gender) + [EX_OFFENDER] + ReleaseTags(f.daysSinceRelease)
    + SupervisionTags(f.supervisionStatus) + HousingTags(f.housingStatus)
    + HousingTypeTags(f.housingStatus, f.housingType) + SubstanceTags(f.substances, f.currentSubstanceUse)
    + MentalHealthTags(f.mentalHealth) + DisabilityTags(f.disabilityStatus, f.disabilityDuration)
    + MedicationTags(f.medicationUse, f.medicationTypes) + EducationTags(f.educationLevel)
    + RelationshipTags(f.relationshipStatus) + EmploymentTags(f.employmentStatus)
  }

  /** The substance rule of `generate_bcio_attributes`, with its loop over the substances. */
  method SubstanceRule(substances: seq<string>, currentUse: string) returns (tags: seq<TagData>)
    ensures tags == SubstanceTags(substances, currentUse)
  {
    tags := [];
    if |substances| > 0 && "none" !in substances {
      tags := tags + [SUBSTANCE_HISTORY];
      for k := 0 to |substances|
        invariant tags == [SUBSTANCE_HISTORY] + SubstanceHistories(substances[..k])
      {
        assert substances[..k + 1][..k] == substances[..k];
        var substance := substances[k];
        if substance in SUBSTANCE_MAP {
          var (name, id) := SUBSTANCE_MAP[substance];
          tags := tags + [TagData(name, "health", id)];
        }
      }
      assert substances[..|substances|] == substances;
      if currentUse == "recovery" {
        tags := tags + [SUBSTANCE_RECOVERY];
      } else if currentUse == "currently_using" {
        tags := tags + [ACTIVE_USE];
      }
    }
  }

  /** The mental-health rule, with its loop over the disclosed conditions. */
  method MentalHealthRule(conditions: seq<string>) returns (tags: seq<TagData>)
    ensures tags == MentalHealthTags(conditions)
  {
    tags := [];
    if |conditions| > 0 && "none" !in conditions {
      for k := 0 to |conditions|
        invariant tags == Disclosures(conditions[..k])
      {
        assert conditions[..k + 1][..k] == conditions[..k];
        var condition := conditions[k];
        if condition != "none" {
          tags := tags + [TagData("disclosed_" + condition, "health", "DOID:" + condition)];
        }
      }
      assert conditions[..|conditions|] == conditions;
    }
  }

  /** The medication rule, with its loop over the medication types. */
  method MedicationRule(use: string, types: seq<string>) returns (tags: seq<TagData>)
    ensures tags == MedicationTags(use, types)
  {
    tags := [];
    if use == "yes" {
      tags := tags + [MEDICATION_USE];
      for k := 0 to |types|
        invariant tags == [MEDICATION_USE] + MedicationTypeTags(types[..k])
      {
        assert types[..k + 1][..k] == types[..k];
        var medType := types[k];
        tags := tags + [TagData(medType + "_medication", "health", "BCIO:med_" + medType)];
      }
      assert types[..|types|] == types;
    }
  }

  /** The age rule of `generate_bcio_attributes`: each band is a condition of its own, in turn. */
  method AgeRule(age: int) returns (tags: seq<TagData>)
    ensures tags == AgeTags(age)
  {
    tags := [];
    if 13 <= age <= 19 {
      tags := tags + [TEENAGER];
    }
    if 18 <= age <= 25 {
      tags := tags + [YOUNG_ADULT];
    }
    if age >= 18 {
      tags := tags + [ADULT];
    }
  }

  /** The release-recency rule. */
  method ReleaseRule(daysSince: int) returns (tags: seq<TagData>)
    ensures tags == ReleaseTags(daysSince)
  {
    tags := [];
    if daysSince <= 90 {
      tags := tags + [RECENTLY_RELEASED];
    }
    if daysSince <= 30 {
      tags := tags + [FIRST_MONTH];
    }
  }

  /** The housing-status rule. */
  method HousingRule(housing: string) returns (tags: seq<TagData>)
    ensures tags == HousingTags(housing)
  {
    tags := [];
    if housing in HOUSING_MAP {
      var (name, id) := HOUSING_MAP[housing];
      tags := tags + [TagData(name, "housing", id)];
    }
  }

  /** The housing-type rule, only for stable housing with a type given. */
  method HousingTypeRule(housing: string, housingType: string) returns (tags: seq<TagData>)
    ensures tags == HousingTypeTags(housing, housingType)
  {
    tags := [];
    if housing == "stable" && housingType != "" {
      if housingType in HOUSING_TYPE_MAP {
        var (name, id) := HOUSING_TYPE_MAP[housingType];
        tags := tags + [TagData(name, "housing", id)];
      }
    }
  }

  /** The disability rule. */
  method DisabilityRule(status: string, duration: string) returns (tags: seq<TagData>)
    ensures tags == DisabilityTags(status, duration)
  {
    tags := [];
    if status == "has_disability" {
      tags := tags + [DISABLED];
      if duration == "long_term" {
        tags := tags + [LONG_TERM_DISABLED];
      }
    }
  }

  /** The employment rule. */
  method EmploymentRule(employment: string) returns (tags: seq<TagData>)
    ensures tags == EmploymentTags(employment)
  {
    tags := [];
    if employment == "full_time" || employment == "part_time" {
      tags := tags + [EMPLOYED];
    } else if employment == "unemployed_seeking" {
      tags := tags + [UNEMPLOYED];
      tags := tags + [JOB_SEEKING];
    } else if employment == "unable" {
      tags := tags + [UNABLE_TO_WORK];
    }
  }

  /** The gender rule: a gender given and not withheld. */
  method GenderRule(gender: string) returns (tags: seq<TagData>)
    ensures tags == GenderTags(gender)
  {
    tags := [];
    if gender != "" && gender != "prefer_not_say" {
      tags := tags + [TagData(gender + "_gender", "gender", "PATO:" + gender + "_sex")];
    }
  }

  /** The supervision rule. */
  method SupervisionRule(status: Option<string>) returns (tags: seq<TagData>)
    ensures tags == SupervisionTags(status)
  {
    tags := [];
    if status != Some("none") {
      tags := tags + [UNDER_SUPERVISION];
      var text := StatusText(status);
      tags := tags + [TagData(text, "reentry", "BCIO:supervision_" + text)];
    }
  }

  /** The education rule. */
  method EducationRule(level: string) returns (tags: seq<TagData>)
    ensures tags == EducationTags(level)
  {
    tags := [];
    if level in EDUCATION_MAP {
      var (name, id) := EDUCATION_MAP[level];
      tags := tags + [TagData(name, "education", id)];
    }
  }

  /** The relationship rule. */
  method RelationshipRule(status: string) returns (tags: seq<TagData>)
    ensures tags == RelationshipTags(status)
  {
    tags := [];
    if status in RELATIONSHIP_MAP {
      var (name, id) := RELATIONSHIP_MAP[status];
      tags := tags + [TagData(name, "relationship", id)];
    }
  }

  /**
   * `generate_bcio_attributes`: the rules applied in order, each appending its tags to one
   * list; the ex-offender tag is appended unconditionally.
   */
  method GenerateBcioAttributes(f: IntakeForm) returns (attributes: seq<TagData>)
    ensures attributes == BcioAttributes(f)
  {
    attributes := AgeRule(f.age);
    var tags := GenderRule(f.gender);
    attributes := attributes + tags;
    attributes := attributes + [EX_OFFENDER];
    tags := ReleaseRule(f.daysSinceRelease);
    attributes := attributes + tags;
    tags := SupervisionRule(f.supervisionStatus);
    attributes := attributes + tags;
    tags := HousingRule(f.housingStatus);
    attributes := attributes + tags;
    tags := HousingTypeRule(f.housingStatus, f.housingType);
    attributes := attributes + tags;
    tags := SubstanceRule(f.substances, f.currentSubstanceUse);
    attributes := attributes + tags;
    tags := MentalHealthRule(f.mentalHealth);
    attributes := attributes + tags;
    tags := DisabilityRule(f.disabilityStatus, f.disabilityDuration);
    attributes := attributes + tags;
    tags := MedicationRule(f.medicationUse, f.medicationTypes);
    attributes := attributes + tags;
    tags := EducationRule(f.educationLevel);
    attributes := attributes + tags;
    tags := RelationshipRule(f.relationshipStatus);
    attributes := attributes + tags;
    tags := EmploymentRule(f.employmentStatus);
    attributes := attributes + tags;
  }

  // ---------------------------------------------------------------------------------------
  // What the tags of a form say about the form
  // ---------------------------------------------------------------------------------------

  /** The tags of one category, in order. */
  function OfCategory(r: seq<TagData>, category: string): (s: seq<TagData>)
    ensures forall t :: t in s <==> t in r && t.tagCategory == category
    decreases |r|
  {
    if r == [] then []
    else
      var n := |r| - 1;
      OfCategory(r[..n], category) + (if r[n].tagCategory == category then [r[n]] else [])
  }

  lemma {:induction false} OfCategoryAppend(a: seq<TagData>, b: seq<TagData>, category: string)
    ensures OfCategory(a + b, category) == OfCategory(a, category) + OfCategory(b, category)
    decreases |b|
  {
    if b == [] {
      assert a + b == a;
    } else {
      var n := |b| - 1;
      assert (a + b)[..|a + b| - 1] == a + b[..n];
      OfCategoryAppend(a, b[..n], category);
    }
  }

  lemma {:induction false} OfCategoryAll(r: seq<TagData>, category: string)
    requires Tagged(r, category)
    ensures OfCategory(r, category) == r
    decreases |r|
  {
    if r != [] {
      var n := |r| - 1;
      assert r[..n] + [r[n]] == r;
      OfCategoryAll(r[..n], category);
    }
  }

  lemma {:induction false} OfCategoryNone(r: seq<TagData>, category: string)
    requires forall t :: t in r ==> t.tagCategory != category
    ensures OfCategory(r, category) == []
    decreases |r|
  {
    if r != [] {
      var n := |r| - 1;
      OfCategoryNone(r[..n], category);
    }
  }

  /** Each rule gives tags of its own category only. */
  lemma PersonalRulesTagged(f: IntakeForm)
    ensures Tagged(AgeTags(f.age), "age")
    ensures Tagged(GenderTags(f.gender), "gender")
    ensures Tagged([EX_OFFENDER], "reentry")
    ensures Tagged(ReleaseTags(f.daysSinceRelease), "reentry")
    ensures Tagged(SupervisionTags(f.supervisionStatus), "reentry")
    ensures Tagged(HousingTags(f.housingStatus), "housing")
    ensures Tagged(HousingTypeTags(f.housingStatus, f.housingType), "housing")
  {
  }

  /** Each rule gives tags of its own category only. */
  lemma SituationRulesTagged(f: IntakeForm)
    ensures Tagged(SubstanceTags(f.substances, f.currentSubstanceUse), "health")
    ensures Tagged(MentalHealthTags(f.mentalHealth), "health")
    ensures Tagged(DisabilityTags(f.disabilityStatus, f.disabilityDuration), "health")
    ensures Tagged(MedicationTags(f.medicationUse, f.medicationTypes), "health")
    ensures Tagged(EducationTags(f.educationLevel), "education")
    ensures Tagged(RelationshipTags(f.relationshipStatus), "relationship")
    ensures Tagged(EmploymentTags(f.employmentStatus), "employment")
  {
  }

  /** Rule outputs in the order of the form, each of its rule's category. */
  ghost predicate IntakeRuleCategories(
    a1: seq<TagData>, a2: seq<TagData>, a3: seq<TagData>, a4: seq<TagData>, a5: seq<TagData>, a6: seq<TagData>, a7: seq<TagData>,
    a8: seq<TagData>, a9: seq<TagData>, a10: seq<TagData>, a11: seq<TagData>, a12: seq<TagData>, a13: seq<TagData>, a14: seq<TagData>)
  {
    && Tagged(a1, "age") && Tagged(a2, "gender") && Tagged(a3, "reentry") && Tagged(a4, "reentry")
    && Tagged(a5, "reentry") && Tagged(a6, "housing") && Tagged(a7, "housing") && Tagged(a8, "health")
    && Tagged(a9, "health") && Tagged(a10, "health") && Tagged(a11, "health") && Tagged(a12, "education")
    && Tagged(a13, "relationship") && Tagged(a14, "employment")
  }

  /** Appending a rule output of another category leaves a category's tags as they were. */
  lemma OfCategorySkip(a: seq<TagData>, b: seq<TagData>, category: string, k: string)
    requires Tagged(b, k) && k != category
    ensures OfCategory(a + b, category) == OfCategory(a, category)
  {
    OfCategoryAppend(a, b, category);
    OfCategoryNone(b, category);
  }

  /** Appending a rule output of the category appends it to the category's tags. */
  lemma OfCategoryKeep(a: seq<TagData>, b: seq<TagData>, category: string)
    requires Tagged(b, category)
    ensures OfCategory(a + b, category) == OfCategory(a, category) + b
  {
    OfCategoryAppend(a, b, category);
    OfCategoryAll(b, category);
  }

  /** The first rule output of a category starts the category's tags. */
  lemma OfCategoryStart(a: seq<TagData>, b: seq<TagData>, category: string)
    requires OfCategory(a, category) == [] && Tagged(b, category)
    ensures OfCategory(a + b, category) == b
  {
    OfCategoryKeep(a, b, category);
    assert [] + b == b;
  }

  lemma OfCategoryAge(
    a1: seq<TagData>, a2: seq<TagData>, a3: seq<TagData>, a4: seq<TagData>, a5: seq<TagData>, a6: seq<TagData>, a7: seq<TagData>,
    a8: seq<TagData>, a9: seq<TagData>, a10: seq<TagData>, a11: seq<TagData>, a12: seq<TagData>, a13: seq<TagData>, a14: seq<TagData>)
    requires IntakeRuleCategories(a1, a2, a3, a4, a5, a6, a7, a8, a9, a10, a11, a12, a13, a14)
    ensures OfCategory(a1 + a2 + a3 + a4 + a5 + a6 + a7 + a8 + a9 + a10 + a11 + a12 + a13 + a14, "age") == a1
  {
    OfCategoryAll(a1, "age");
    OfCategorySkip(a1, a2, "age", "gender");
    OfCategorySkip(a1 + a2, a3, "age", "reentry");
    OfCategorySkip(a1 + a2 + a3, a4, "age", "reentry");
    OfCategorySkip(a1 + a2 + a3 + a4, a5, "age", "reentry");
    OfCategorySkip(a1 + a2 + a3 + a4 + a5, a6, "age", "housing");
    OfCategorySkip(a1 + a2 + a3 + a4 + a5 + a6, a7, "age", "housing");
    OfCategorySkip(a1 + a2 + a3 + a4 + a5 + a6 + a7, a8, "age", "health");
    OfCategorySkip(a1 + a2 + a3 + a4 + a5 + a6 + a7 + a8, a9, "age", "health");
    OfCategorySkip(a1 + a2 + a3 + a4 + a5 + a6 + a7 + a8 + a9, a10, "age", "health");
    OfCategorySkip(a1 + a2 + a3 + a4 + a5 + a6 + a7 + a8 + a9 + a10, a11, "age", "health");
    OfCategorySkip(a1 + a2 + a3 + a4 + a5 + a6 + a7 + a8 + a9 + a10 + a11, a12, "age", "education");
    OfCategorySkip(a1 + a2 + a3 + a4 + a5 + a6 + a7 + a8 + a9 + a10 + a11 + a12, a13, "age", "relationship");
    OfCategorySkip(a1 + a2 + a3 + a4 + a5 + a6 + a7 + a8 + a9 + a10 + a11 + a12 + a13, a14, "age", "employment");
  }

  lemma OfCategoryGender(
    a1: seq<TagData>, a2: seq<TagData>, a3: seq<TagData>, a4: seq<TagData>, a5: seq<TagData>, a6: seq<TagData>, a7: seq<TagData>,
    a8: seq<TagData>, a9: seq<TagData>, a10: seq<TagData>, a11: seq<TagData>, a12: seq<TagData>, a13: seq<TagData>, a14: seq<TagData>)
    requires IntakeRuleCategories(a1, a2, a3, a4, a5, a6, a7, a8, a9, a10, a11, a12, a13, a14)
    ensures OfCategory(a1 + a2 + a3 + a4 + a5 + a6 + a7 + a8 + a9 + a10 + a11 + a12 + a13 + a14, "gender") == a2
  {
    OfCategoryNone(a1, "gender");
    OfCategoryStart(a1, a2, "gender");
    OfCategorySkip(a1 + a2, a3, "gender", "reentry");
    OfCategorySkip(a1 + a2 + a3, a4, "gender", "reentry");
    OfCategorySkip(a1 + a2 + a3 + a4, a5, "gender", "reentry");
    OfCategorySkip(a1 + a2 + a3 + a4 + a5, a6, "gender", "housing");
    OfCategorySkip(a1 + a2 + a3 + a4 + a5 + a6, a7, "gender", "housing");
    OfCategorySkip(a1 + a2 + a3 + a4 + a5 + a6 + a7, a8, "gender", "health");
    OfCategorySkip(a1 + a2 + a3 + a4 + a5 + a6 + a7 + a8, a9, "gender", "health");
    OfCategorySkip(a1 + a2 + a3 + a4 + a5 + a6 + a7 + a8 + a9, a10, "gender", "health");
    OfCategorySkip(a1 + a2 + a3 + a4 + a5 + a6 + a7 + a8 + a9 + a10, a11, "gender", "health");
    OfCategorySkip(a1 + a2 + a3 + a4 + a5 + a6 + a7 + a8 + a9 + a10 + a11, a12, "gender", "education");
    OfCategorySkip(a1 + a2 + a3 + a4 + a5 + a6 + a7 + a8 + a9 + a10 + a11 + a12, a13, "gender", "relationship");
    OfCategorySkip(a1 + a2 + a3 + a4 + a5 + a6 + a7 + a8 + a9 + a10 + a11 + a12 + a13, a14, "gender", "employment");
  }

  lemma OfCategoryReentry(
    a1: seq<TagData>, a2: seq<TagData>, a3: seq<TagData>, a4: seq<TagData>, a5: seq<TagData>, a6: seq<TagData>, a7: seq<TagData>,
    a8: seq<TagData>, a9: seq<TagData>, a10: seq<TagData>, a11: seq<TagData>, a12: seq<TagData>, a13: seq<TagData>, a14: seq<TagData>)
    requires IntakeRuleCategories(a1, a2, a3, a4, a5, a6, a7, a8, a9, a10, a11, a12, a13, a14)
    ensures OfCategory(a1 + a2 + a3 + a4 + a5 + a6 + a7 + a8 + a9 + a10 + a11 + a12 + a13 + a14, "reentry") == a3 + a4 + a5
  {
    OfCategoryNone(a1, "reentry");
    OfCategorySkip(a1, a2, "reentry", "gender");
    OfCategoryStart(a1 + a2, a3, "reentry");
    OfCategoryKeep(a1 + a2 + a3, a4, "reentry");
    OfCategoryKeep(a1 + a2 + a3 + a4, a5, "reentry");
    OfCategorySkip(a1 + a2 + a3 + a4 + a5, a6, "reentry", "housing");
    OfCategorySkip(a1 + a2 + a3 + a4 + a5 + a6, a7, "reentry", "housing");
    OfCategorySkip(a1 + a2 + a3 + a4 + a5 + a6 + a7, a8, "reentry", "health");
    OfCategorySkip(a1 + a2 + a3 + a4 + a5 + a6 + a7 + a8, a9, "reentry", "health");
    OfCategorySkip(a1 + a2 + a3 + a4 + a5 + a6 + a7 + a8 + a9, a10, "reentry", "health");
    OfCategorySkip(a1 + a2 + a3 + a4 + a5 + a6 + a7 + a8 + a9 + a10, a11, "reentry", "health");
    OfCategorySkip(a1 + a2 + a3 + a4 + a5 + a6 + a7 + a8 + a9 + a10 + a11, a12, "reentry", "education");
    OfCategorySkip(a1 + a2 + a3 + a4 + a5 + a6 + a7 + a8 + a9 + a10 + a11 + a12, a13, "reentry", "relationship");
    OfCategorySkip(a1 + a2 + a3 + a4 + a5 + a6 + a7 + a8 + a9 + a10 + a11 + a12 + a13, a14, "reentry", "employment");
  }

  lemma OfCategoryHousing(
    a1: seq<TagData>, a2: seq<TagData>, a3: seq<TagData>, a4: seq<TagData>, a5: seq<TagData>, a6: seq<TagData>, a7: seq<TagData>,
    a8: seq<TagData>, a9: seq<TagData>, a10: seq<TagData>, a11: seq<TagData>, a12: seq<TagData>, a13: seq<TagData>, a14: seq<TagData>)
    requires IntakeRuleCategories(a1, a2, a3, a4, a5, a6, a7, a8, a9, a10, a11, a12, a13, a14)
    ensures OfCategory(a1 + a2 + a3 + a4 + a5 + a6 + a7 + a8 + a9 + a10 + a11 + a12 + a13 + a14, "housing") == a6 + a7
  {
    OfCategoryNone(a1, "housing");
    OfCategorySkip(a1, a2, "housing", "gender");
    OfCategorySkip(a1 + a2, a3, "housing", "reentry");
    OfCategorySkip(a1 + a2 + a3, a4, "housing", "reentry");
    OfCategorySkip(a1 + a2 + a3 + a4, a5, "housing", "reentry");
    OfCategoryStart(a1 + a2 + a3 + a4 + a5, a6, "housing");
    OfCategoryKeep(a1 + a2 + a3 + a4 + a5 + a6, a7, "housing");
    OfCategorySkip(a1 + a2 + a3 + a4 + a5 + a6 + a7, a8, "housing", "health");
    OfCategorySkip(a1 + a2 + a3 + a4 + a5 + a6 + a7 + a8, a9, "housing", "health");
    OfCategorySkip(a1 + a2 + a3 + a4 + a5 + a6 + a7 + a8 + a9, a10, "housing", "health");
    OfCategorySkip(a1 + a2 + a3 + a4 + a5 + a6 + a7 + a8 + a9 + a10, a11, "housing", "health");
    OfCategorySkip(a1 + a2 + a3 + a4 + a5 + a6 + a7 + a8 + a9 + a10 + a11, a12, "housing", "education");
    OfCategorySkip(a1 + a2 + a3 + a4 + a5 + a6 + a7 + a8 + a9 + a10 + a11 + a12, a13, "housing", "relationship");
    OfCategorySkip(a1 + a2 + a3 + a4 + a5 + a6 + a7 + a8 + a9 + a10 + a11 + a12 + a13, a14, "housing", "employment");
  }

  lemma OfCategoryHealth(
    a1: seq<TagData>, a2: seq<TagData>, a3: seq<TagData>, a4: seq<TagData>, a5: seq<TagData>, a6: seq<TagData>, a7: seq<TagData>,
    a8: seq<TagData>, a9: seq<TagData>, a10: seq<TagData>, a11: seq<TagData>, a12: seq<TagData>, a13: seq<TagData>, a14: seq<TagData>)
    requires IntakeRuleCategories(a1, a2, a3, a4, a5, a6, a7, a8, a9, a10, a11, a12, a13, a14)
    ensures OfCategory(a1 + a2 + a3 + a4 + a5 + a6 + a7 + a8 + a9 + a10 + a11 + a12 + a13 + a14, "health") == a8 + a9 + a10 + a11
  {
    OfCategoryNone(a1, "health");
    OfCategorySkip(a1, a2, "health", "gender");
    OfCategorySkip(a1 + a2, a3, "health", "reentry");
    OfCategorySkip(a1 + a2 + a3, a4, "health", "reentry");
    OfCategorySkip(a1 + a2 + a3 + a4, a5, "health", "reentry");
    OfCategorySkip(a1 + a2 + a3 + a4 + a5, a6, "health", "housing");
    OfCategorySkip(a1 + a2 + a3 + a4 + a5 + a6, a7, "health", "housing");
    OfCategoryStart(a1 + a2 + a3 + a4 + a5 + a6 + a7, a8, "health");
    OfCategoryKeep(a1 + a2 + a3 + a4 + a5 + a6 + a7 + a8, a9, "health");
    OfCategoryKeep(a1 + a2 + a3 + a4 + a5 + a6 + a7 + a8 + a9, a10, "health");
    OfCategoryKeep(a1 + a2 + a3 + a4 + a5 + a6 + a7 + a8 + a9 + a10, a11, "health");
    OfCategorySkip(a1 + a2 + a3 + a4 + a5 + a6 + a7 + a8 + a9 + a10 + a11, a12, "health", "education");
    OfCategorySkip(a1 + a2 + a3 + a4 + a5 + a6 + a7 + a8 + a9 + a10 + a11 + a12, a13, "health", "relationship");
    OfCategorySkip(a1 + a2 + a3 + a4 + a5 + a6 + a7 + a8 + a9 + a10 + a11 + a12 + a13, a14, "health", "employment");
  }

  lemma OfCategoryEducation(
    a1: seq<TagData>, a2: seq<TagData>, a3: seq<TagData>, a4: seq<TagData>, a5: seq<TagData>, a6: seq<TagData>, a7: seq<TagData>,
    a8: seq<TagData>, a9: seq<TagData>, a10: seq<TagData>, a11: seq<TagData>, a12: seq<TagData>, a13: seq<TagData>, a14: seq<TagData>)
    requires IntakeRuleCategories(a1, a2, a3, a4, a5, a6, a7, a8, a9, a10, a11, a12, a13, a14)
    ensures OfCategory(a1 + a2 + a3 + a4 + a5 + a6 + a7 + a8 + a9 + a10 + a11 + a12 + a13 + a14, "education") == a12
  {
    OfCategoryNone(a1, "education");
    OfCategorySkip(a1, a2, "education", "gender");
    OfCategorySkip(a1 + a2, a3, "education", "reentry");
    OfCategorySkip(a1 + a2 + a3, a4, "education", "reentry");
    OfCategorySkip(a1 + a2 + a3 + a4, a5, "education", "reentry");
    OfCategorySkip(a1 + a2 + a3 + a4 + a5, a6, "education", "housing");
    OfCategorySkip(a1 + a2 + a3 + a4 + a5 + a6, a7, "education", "housing");
    OfCategorySkip(a1 + a2 + a3 + a4 + a5 + a6 + a7, a8, "education", "health");
    OfCategorySkip(a1 + a2 + a3 + a4 + a5 + a6 + a7 + a8, a9, "education", "health");
    OfCategorySkip(a1 + a2 + a3 + a4 + a5 + a6 + a7 + a8 + a9, a10, "education", "health");
    OfCategorySkip(a1 + a2 + a3 + a4 + a5 + a6 + a7 + a8 + a9 + a10, a11, "education", "health");
    OfCategoryStart(a1 + a2 + a3 + a4 + a5 + a6 + a7 + a8 + a9 + a10 + a11, a12, "education");
    OfCategorySkip(a1 + a2 + a3 + a4 + a5 + a6 + a7 + a8 + a9 + a10 + a11 + a12, a13, "education", "relationship");
    OfCategorySkip(a1 + a2 + a3 + a4 + a5 + a6 + a7 + a8 + a9 + a10 + a11 + a12 + a13, a14, "education", "employment");
  }

  lemma OfCategoryRelationship(
    a1: seq<TagData>, a2: seq<TagData>, a3: seq<TagData>, a4: seq<TagData>, a5: seq<TagData>, a6: seq<TagData>, a7: seq<TagData>,
    a8: seq<TagData>, a9: seq<TagData>, a10: seq<TagData>, a11: seq<TagData>, a12: seq<TagData>, a13: seq<TagData>, a14: seq<TagData>)
    requires IntakeRuleCategories(a1, a2, a3, a4, a5, a6, a7, a8, a9, a10, a11, a12, a13, a14)
    ensures OfCategory(a1 + a2 + a3 + a4 + a5 + a6 + a7 + a8 + a9 + a10 + a11 + a12 + a13 + a14, "relationship") == a13
  {
    OfCategoryNone(a1, "relationship");
    OfCategorySkip(a1, a2, "relationship", "gender");
    OfCategorySkip(a1 + a2, a3, "relationship", "reentry");
    OfCategorySkip(a1 + a2 + a3, a4, "relationship", "reentry");
    OfCategorySkip(a1 + a2 + a3 + a4, a5, "relationship", "reentry");
    OfCategorySkip(a1 + a2 + a3 + a4 + a5, a6, "relationship", "housing");
    OfCategorySkip(a1 + a2 + a3 + a4 + a5 + a6, a7, "relationship", "housing");
    OfCategorySkip(a1 + a2 + a3 + a4 + a5 + a6 + a7, a8, "relationship", "health");
    OfCategorySkip(a1 + a2 + a3 + a4 + a5 + a6 + a7 + a8, a9, "relationship", "health");
    OfCategorySkip(a1 + a2 + a3 + a4 + a5 + a6 + a7 + a8 + a9, a10, "relationship", "health");
    OfCategorySkip(a1 + a2 + a3 + a4 + a5 + a6 + a7 + a8 + a9 + a10, a11, "relationship", "health");
    OfCategorySkip(a1 + a2 + a3 + a4 + a5 + a6 + a7 + a8 + a9 + a10 + a11, a12, "relationship", "education");
    OfCategoryStart(a1 + a2 + a3 + a4 + a5 + a6 + a7 + a8 + a9 + a10 + a11 + a12, a13, "relationship");
    OfCategorySkip(a1 + a2 + a3 + a4 + a5 + a6 + a7 + a8 + a9 + a10 + a11 + a12 + a13, a14, "relationship", "employment");
  }

  lemma OfCategoryEmployment(
    a1: seq<TagData>, a2: seq<TagData>, a3: seq<TagData>, a4: seq<TagData>, a5: seq<TagData>, a6: seq<TagData>, a7: seq<TagData>,
    a8: seq<TagData>, a9: seq<TagData>, a10: seq<TagData>, a11: seq<TagData>, a12: seq<TagData>, a13: seq<TagData>, a14: seq<TagData>)
    requires IntakeRuleCategories(a1, a2, a3, a4, a5, a6, a7, a8, a9, a10, a11, a12, a13, a14)
    ensures OfCategory(a1 + a2 + a3 + a4 + a5 + a6 + a7 + a8 + a9 + a10 + a11 + a12 + a13 + a14, "employment") == a14
  {
    OfCategoryNone(a1, "employment");
    OfCategorySkip(a1, a2, "employment", "gender");
    OfCategorySkip(a1 + a2, a3, "employment", "reentry");
    OfCategorySkip(a1 + a2 + a3, a4, "employment", "reentry");
    OfCategorySkip(a1 + a2 + a3 + a4, a5, "employment", "reentry");
    OfCategorySkip(a1 + a2 + a3 + a4 + a5, a6, "employment", "housing");
    OfCategorySkip(a1 + a2 + a3 + a4 + a5 + a6, a7, "employment", "housing");
    OfCategorySkip(a1 + a2 + a3 + a4 + a5 + a6 + a7, a8, "employment", "health");
    OfCategorySkip(a1 + a2 + a3 + a4 + a5 + a6 + a7 + a8, a9, "employment", "health");
    OfCategorySkip(a1 + a2 + a3 + a4 + a5 + a6 + a7 + a8 + a9, a10, "employment", "health");
    OfCategorySkip(a1 + a2 + a3 + a4 + a5 + a6 + a7 + a8 + a9 + a10, a11, "employment", "health");
    OfCategorySkip(a1 + a2 + a3 + a4 + a5 + a6 + a7 + a8 + a9 + a10 + a11, a12, "employment", "education");
    OfCategorySkip(a1 + a2 + a3 + a4 + a5 + a6 + a7 + a8 + a9 + a10 + a11 + a12, a13, "employment", "relationship");
    OfCategoryStart(a1 + a2 + a3 + a4 + a5 + a6 + a7 + a8 + a9 + a10 + a11 + a12 + a13, a14, "employment");
  }

  /**
   * Each category is filled by its own rules only, in rule order: the age tags are the age
   * rule's, the health tags are the substance, mental-health, disability and medication rules',
   * and so on.
   */
  lemma AttributesByCategory(f: IntakeForm)
    ensures OfCategory(BcioAttributes(f), "age") == AgeTags(f.age)
    ensures OfCategory(BcioAttributes(f), "gender") == GenderTags(f.gender)
    ensures OfCategory(BcioAttributes(f), "reentry")
            == [EX_OFFENDER] + ReleaseTags(f.daysSinceRelease) + SupervisionTags(f.supervisionStatus)
    ensures OfCategory(BcioAttributes(f), "housing")
            == HousingTags(f.housingStatus) + HousingTypeTags(f.housingStatus, f.housingType)
    ensures OfCategory(BcioAttributes(f), "health")
            == SubstanceTags(f.substances, f.currentSubstanceUse) + MentalHealthTags(f.mentalHealth)
               + DisabilityTags(f.disabilityStatus, f.disabilityDuration)
               + MedicationTags(f.medicationUse, f.medicationTypes)
    ensures OfCategory(BcioAttributes(f), "education") == EducationTags(f.educationLevel)
    ensures OfCategory(BcioAttributes(f), "relationship") == RelationshipTags(f.relationshipStatus)
    ensures OfCategory(BcioAttributes(f), "employment") == EmploymentTags(f.employmentStatus)
  {
    PersonalRulesTagged(f);
    SituationRulesTagged(f);
    assert IntakeRuleCategories(
      AgeTags(f.age), GenderTags(f.gender), [EX_OFFENDER], ReleaseTags(f.daysSinceRelease),
      SupervisionTags(f.supervisionStatus), HousingTags(f.housingStatus),
      HousingTypeTags(f.housingStatus, f.housingType), SubstanceTags(f.substances, f.currentSubstanceUse),
      MentalHealthTags(f.mentalHealth), DisabilityTags(f.disabilityStatus, f.disabilityDuration),
      MedicationTags(f.medicationUse, f.medicationTypes), EducationTags(f.educationLevel),
      RelationshipTags(f.relationshipStatus), EmploymentTags(f.employmentStatus));
    OfCategoryAge(
      AgeTags(f.age), GenderTags(f.gender), [EX_OFFENDER], ReleaseTags(f.daysSinceRelease),
      SupervisionTags(f.supervisionStatus), HousingTags(f.housingStatus),
      HousingTypeTags(f.housingStatus, f.housingType), SubstanceTags(f.substances, f.currentSubstanceUse),
      MentalHealthTags(f.mentalHealth), DisabilityTags(f.disabilityStatus, f.disabilityDuration),
      MedicationTags(f.medicationUse, f.medicationTypes), EducationTags(f.educationLevel),
      RelationshipTags(f.relationshipStatus), EmploymentTags(f.employmentStatus));
    OfCategoryGender(
      AgeTags(f.age), GenderTags(f.gender), [EX_OFFENDER], ReleaseTags(f.daysSinceRelease),
      SupervisionTags(f.supervisionStatus), HousingTags(f.housingStatus),
      HousingTypeTags(f.housingStatus, f.housingType), SubstanceTags(f.substances, f.currentSubstanceUse),
      MentalHealthTags(f.mentalHealth), DisabilityTags(f.disabilityStatus, f.disabilityDuration),
      MedicationTags(f.medicationUse, f.medicationTypes), EducationTags(f.educationLevel),
      RelationshipTags(f.relationshipStatus), EmploymentTags(f.employmentStatus));
    OfCategoryReentry(
      AgeTags(f.age), GenderTags(f.gender), [EX_OFFENDER], ReleaseTags(f.daysSinceRelease),
      SupervisionTags(f.supervisionStatus), HousingTags(f.housingStatus),
      HousingTypeTags(f.housingStatus, f.housingType), SubstanceTags(f.substances, f.currentSubstanceUse),
      MentalHealthTags(f.mentalHealth), DisabilityTags(f.disabilityStatus, f.disabilityDuration),
      MedicationTags(f.medicationUse, f.medicationTypes), EducationTags(f.educationLevel),
      RelationshipTags(f.relationshipStatus), EmploymentTags(f.employmentStatus));
    OfCategoryHousing(
      AgeTags(f.age), GenderTags(f.gender), [EX_OFFENDER], ReleaseTags(f.daysSinceRelease),
      SupervisionTags(f.supervisionStatus), HousingTags(f.housingStatus),
      HousingTypeTags(f.housingStatus, f.housingType), SubstanceTags(f.substances, f.currentSubstanceUse),
      MentalHealthTags(f.mentalHealth), DisabilityTags(f.disabilityStatus, f.disabilityDuration),
      MedicationTags(f.medicationUse, f.medicationTypes), EducationTags(f.educationLevel),
      RelationshipTags(f.relationshipStatus), EmploymentTags(f.employmentStatus));
    OfCategoryHealth(
      AgeTags(f.age), GenderTags(f.gender), [EX_OFFENDER], ReleaseTags(f.daysSinceRelease),
      SupervisionTags(f.supervisionStatus), HousingTags(f.housingStatus),
      HousingTypeTags(f.housingStatus, f.housingType), SubstanceTags(f.substances, f.currentSubstanceUse),
      MentalHealthTags(f.mentalHealth), DisabilityTags(f.disabilityStatus, f.disabilityDuration),
      MedicationTags(f.medicationUse, f.medicationTypes), EducationTags(f.educationLevel),
      RelationshipTags(f.relationshipStatus), EmploymentTags(f.employmentStatus));
    OfCategoryEducation(
      AgeTags(f.age), GenderTags(f.gender), [EX_OFFENDER], ReleaseTags(f.daysSinceRelease),
      SupervisionTags(f.supervisionStatus), HousingTags(f.housingStatus),
      HousingTypeTags(f.housingStatus, f.housingType), SubstanceTags(f.substances, f.currentSubstanceUse),
      MentalHealthTags(f.mentalHealth), DisabilityTags(f.disabilityStatus, f.disabilityDuration),
      MedicationTags(f.medicationUse, f.medicationTypes), EducationTags(f.educationLevel),
      RelationshipTags(f.relationshipStatus), EmploymentTags(f.employmentStatus));
    OfCategoryRelationship(
      AgeTags(f.age), GenderTags(f.gender), [EX_OFFENDER], ReleaseTags(f.daysSinceRelease),
      SupervisionTags(f.supervisionStatus), HousingTags(f.housingStatus),
      HousingTypeTags(f.housingStatus, f.housingType), SubstanceTags(f.substances, f.currentSubstanceUse),
      MentalHealthTags(f.mentalHealth), DisabilityTags(f.disabilityStatus, f.disabilityDuration),
      MedicationTags(f.medicationUse, f.medicationTypes), EducationTags(f.educationLevel),
      RelationshipTags(f.relationshipStatus), EmploymentTags(f.employmentStatus));
    OfCategoryEmployment(
      AgeTags(f.age), GenderTags(f.gender), [EX_OFFENDER], ReleaseTags(f.daysSinceRelease),
      SupervisionTags(f.supervisionStatus), HousingTags(f.housingStatus),
      HousingTypeTags(f.housingStatus, f.housingType), SubstanceTags(f.substances, f.currentSubstanceUse),
      MentalHealthTags(f.mentalHealth), DisabilityTags(f.disabilityStatus, f.disabilityDuration),
      MedicationTags(f.medicationUse, f.medicationTypes), EducationTags(f.educationLevel),
      RelationshipTags(f.relationshipStatus), EmploymentTags(f.employmentStatus));
  }

  function GenderTag(gender: string): TagData {
    TagData(gender + "_gender", "gender", "PATO:" + gender + "_sex")
  }

  lemma AgeBandsIn(r: seq<TagData>, age: int)
    requires OfCategory(r, "age") == AgeTags(age)
    ensures TEENAGER in r <==> 13 <= age <= 19
    ensures YOUNG_ADULT in r <==> 18 <= age <= 25
    ensures ADULT in r <==> age >= 18
  {
  }

  /** The three age bands, each exactly on its range; ages 18 and 19 fall in all three. */
  lemma AgeBands(f: IntakeForm)
    ensures TEENAGER in BcioAttributes(f) <==> 13 <= f.age <= 19
    ensures YOUNG_ADULT in BcioAttributes(f) <==> 18 <= f.age <= 25
    ensures ADULT in BcioAttributes(f) <==> f.age >= 18
  {
    AttributesByCategory(f);
    AgeBandsIn(BcioAttributes(f), f.age);
  }

  lemma GenderIn(r: seq<TagData>, gender: string)
    requires OfCategory(r, "gender") == GenderTags(gender)
    ensures gender != "" && gender != "prefer_not_say" ==> GenderTag(gender) in r
    ensures forall t :: t in r && t.tagCategory == "gender"
              ==> gender != "" && gender != "prefer_not_say" && t == GenderTag(gender)
  {
  }

  /** The only gender tag is the one of the gender given, and only when it was not withheld. */
  lemma GenderDisclosed(f: IntakeForm)
    ensures f.gender != "" && f.gender != "prefer_not_say" ==> GenderTag(f.gender) in BcioAttributes(f)
    ensures forall t :: t in BcioAttributes(f) && t.tagCategory == "gender"
              ==> f.gender != "" && f.gender != "prefer_not_say" && t == GenderTag(f.gender)
  {
    AttributesByCategory(f);
    GenderIn(BcioAttributes(f), f.gender);
  }

  lemma ReentryIn(r: seq<TagData>, days: int, status: Option<string>)
    requires OfCategory(r, "reentry") == [EX_OFFENDER] + ReleaseTags(days) + SupervisionTags(status)
    ensures EX_OFFENDER in r
    ensures RECENTLY_RELEASED in r <==> days <= 90
    ensures FIRST_MONTH in r <==> days <= 30
    ensures UNDER_SUPERVISION in r <==> status != Some("none")
    ensures status == None ==> SupervisionTag("None") in r
  {
    assert EX_OFFENDER in OfCategory(r, "reentry");
    if status == None {
      assert SupervisionTag("None") in OfCategory(r, "reentry");
    }
  }

  /**
   * Everyone is tagged as an ex-offender; the release tags follow the 90- and 30-day
   * thresholds, so the first-month tag comes with the recent-release tag; supervision is
   * tagged for every status but 'none', a missing status included, which is tagged "None".
   */
  lemma ReentryTags(f: IntakeForm)
    ensures EX_OFFENDER in BcioAttributes(f)
    ensures RECENTLY_RELEASED in BcioAttributes(f) <==> f.daysSinceRelease <= 90
    ensures FIRST_MONTH in BcioAttributes(f) <==> f.daysSinceRelease <= 30
    ensures FIRST_MONTH in BcioAttributes(f) ==> RECENTLY_RELEASED in BcioAttributes(f)
    ensures UNDER_SUPERVISION in BcioAttributes(f) <==> f.supervisionStatus != Some("none")
    ensures f.supervisionStatus == None
            ==> SupervisionTag("None") in BcioAttributes(f)
  {
    AttributesByCategory(f);
    ReentryIn(BcioAttributes(f), f.daysSinceRelease, f.supervisionStatus);
  }

  /** The housing-status ids and the housing-type ids are apart. */
  lemma HousingIdsApart(id: string)
    requires id in HOUSING_IDS
    ensures id !in HOUSING_TYPE_IDS
  {
  }

  lemma HousingIn(r: seq<TagData>, housing: string, housingType: string)
    requires OfCategory(r, "housing") == HousingTags(housing) + HousingTypeTags(housing, housingType)
    ensures housing in HOUSING_MAP ==> Entry(HOUSING_MAP, housing, "housing") in r
    ensures forall t :: t in r && t.tagCategory == "housing" ==> t.bcioId in HOUSING_IDS || t.bcioId in HOUSING_TYPE_IDS
    ensures forall t :: t in r && t.tagCategory == "housing" && t.bcioId in HOUSING_TYPE_IDS
              ==> housing == "stable" && housingType in HOUSING_TYPE_MAP
    ensures housing == "stable" && housingType in HOUSING_TYPE_MAP
            ==> Entry(HOUSING_TYPE_MAP, housingType, "housing") in r
  {
    if housing in HOUSING_MAP {
      assert Entry(HOUSING_MAP, housing, "housing") in OfCategory(r, "housing");
    }
    if housing == "stable" && housingType in HOUSING_TYPE_MAP {
      assert Entry(HOUSING_TYPE_MAP, housingType, "housing") in OfCategory(r, "housing");
    }
    forall t | t in r && t.tagCategory == "housing" && t.bcioId in HOUSING_TYPE_IDS
      ensures housing == "stable" && housingType in HOUSING_TYPE_MAP
    {
      assert t in OfCategory(r, "housing");
      if t in HousingTags(housing) {
        HousingIdsApart(t.bcioId);
      }
    }
  }

  /**
   * The housing status gives its tag; a housing-type tag appears only for stable housing, and
   * for stable housing of a known type it does.
   */
  lemma HousingTypeOnlyWhenStable(f: IntakeForm)
    ensures f.housingStatus in HOUSING_MAP ==> Entry(HOUSING_MAP, f.housingStatus, "housing") in BcioAttributes(f)
    ensures forall t :: t in BcioAttributes(f) && t.tagCategory == "housing"
              ==> t.bcioId in HOUSING_IDS || t.bcioId in HOUSING_TYPE_IDS
    ensures forall t :: t in BcioAttributes(f) && t.tagCategory == "housing" && t.bcioId in HOUSING_TYPE_IDS
              ==> f.housingStatus == "stable" && f.housingType in HOUSING_TYPE_MAP
    ensures f.housingStatus == "stable" && f.housingType in HOUSING_TYPE_MAP
            ==> Entry(HOUSING_TYPE_MAP, f.housingType, "housing") in BcioAttributes(f)
  {
    AttributesByCategory(f);
    HousingIn(BcioAttributes(f), f.housingStatus, f.housingType);
  }

  /** A string that starts with `p` does not start with a `q` that differs from `p` within both. */
  lemma PrefixesClash(s: string, p: string, q: string, i: nat)
    requires StartsWith(s, p) && i < |p| && i < |q| && p[i] != q[i]
    ensures !StartsWith(s, q)
  {
    assert s[i] == p[i];
  }

  /** The substance, disability and medication-use class ids are BCIO numbers. */
  lemma NumberedIds(id: string)
    requires id in SUBSTANCE_IDS || id in {"BCIO:0000211", "BCIO:0000216", "BCIO:0000217", "BCIO:050474", "BCIO:050479", "BCIO:015093"}
    ensures StartsWith(id, "BCIO:0")
  {
  }

  /** The health tags of `r` are those of the substance, mental-health, disability and medication rules. */
  ghost predicate HealthFrom(r: seq<TagData>, f: IntakeForm) {
    OfCategory(r, "health")
    == SubstanceTags(f.substances, f.currentSubstanceUse) + MentalHealthTags(f.mentalHealth)
       + DisabilityTags(f.disabilityStatus, f.disabilityDuration) + MedicationTags(f.medicationUse, f.medicationTypes)
  }

  /** The substance and disability tags carry BCIO numbers. */
  lemma HealthRulesNumbered(substances: seq<string>, currentUse: string, status: string, duration: string)
    ensures forall t :: t in SubstanceTags(substances, currentUse) ==> StartsWith(t.bcioId, "BCIO:0")
    ensures forall t :: t in DisabilityTags(status, duration) ==> StartsWith(t.bcioId, "BCIO:0")
    ensures StartsWith(MEDICATION_USE.bcioId, "BCIO:0")
  {
    forall t | t in SubstanceTags(substances, currentUse)
      ensures StartsWith(t.bcioId, "BCIO:0")
    {
      NumberedIds(t.bcioId);
    }
    forall t | t in DisabilityTags(status, duration)
      ensures StartsWith(t.bcioId, "BCIO:0")
    {
      NumberedIds(t.bcioId);
    }
    NumberedIds(MEDICATION_USE.bcioId);
  }

  /**
   * Four runs of tags whose class ids are of different kinds: a tag of their concatenation
   * belongs to the run its kind says.
   */
  lemma PartOfKind(t: TagData, s: seq<TagData>, m: seq<TagData>, d: seq<TagData>, med: seq<TagData>)
    requires t in s + m + d + med
    requires forall x :: x in s + d ==> StartsWith(x.bcioId, "BCIO:0")
    requires forall x :: x in m ==> StartsWith(x.bcioId, "DOID:")
    requires forall x :: x in med ==> x == MEDICATION_USE || StartsWith(x.bcioId, "BCIO:med_")
    requires StartsWith(MEDICATION_USE.bcioId, "BCIO:0")
    ensures StartsWith(t.bcioId, "DOID:") ==> t in m
    ensures StartsWith(t.bcioId, "BCIO:med_") ==> t in med
    ensures StartsWith(t.bcioId, "BCIO:0") ==> t in s || t in d || (t in med && t == MEDICATION_USE)
  {
    if t in s + d || t == MEDICATION_USE {
      PrefixesClash(t.bcioId, "BCIO:0", "DOID:", 0);
      PrefixesClash(t.bcioId, "BCIO:0", "BCIO:med_", 5);
    } else if t in m {
      PrefixesClash(t.bcioId, "DOID:", "BCIO:med_", 0);
      PrefixesClash(t.bcioId, "DOID:", "BCIO:0", 0);
    } else {
      assert StartsWith(t.bcioId, "BCIO:med_");
      PrefixesClash(t.bcioId, "BCIO:med_", "DOID:", 0);
      PrefixesClash(t.bcioId, "BCIO:med_", "BCIO:0", 5);
    }
  }

  /** Where a health tag of `r` comes from, told by its class id. */
  lemma HealthOrigin(r: seq<TagData>, f: IntakeForm, t: TagData)
    requires HealthFrom(r, f) && t in r && t.tagCategory == "health"
    ensures StartsWith(t.bcioId, "DOID:") ==> t in MentalHealthTags(f.mentalHealth)
    ensures StartsWith(t.bcioId, "BCIO:med_") ==> t in MedicationTags(f.medicationUse, f.medicationTypes)
    ensures StartsWith(t.bcioId, "BCIO:0") ==>
              || t in SubstanceTags(f.substances, f.currentSubstanceUse)
              || t in DisabilityTags(f.disabilityStatus, f.disabilityDuration)
              || (t in MedicationTags(f.medicationUse, f.medicationTypes) && t == MEDICATION_USE)
  {
    assert t in OfCategory(r, "health");
    HealthRulesNumbered(f.substances, f.currentSubstanceUse, f.disabilityStatus, f.disabilityDuration);
    PartOfKind(t, SubstanceTags(f.substances, f.currentSubstanceUse), MentalHealthTags(f.mentalHealth),
               DisabilityTags(f.disabilityStatus, f.disabilityDuration), MedicationTags(f.medicationUse, f.medicationTypes));
  }

  /** Some boxes were ticked, and 'none' was not among them. */
  predicate TickedWithoutNone(items: seq<string>) {
    |items| > 0 && "none" !in items
  }

  /** The history, recovery and active-use tags of the substance rule. */
  lemma SubstanceTagsMembers(substances: seq<string>, currentUse: string)
    ensures SUBSTANCE_HISTORY in SubstanceTags(substances, currentUse) <==> TickedWithoutNone(substances)
    ensures SUBSTANCE_RECOVERY in SubstanceTags(substances, currentUse)
            <==> TickedWithoutNone(substances) && currentUse == "recovery"
    ensures ACTIVE_USE in SubstanceTags(substances, currentUse)
            <==> TickedWithoutNone(substances) && currentUse == "currently_using"
  {
    assert SUBSTANCE_RECOVERY.bcioId !in SUBSTANCE_IDS && ACTIVE_USE.bcioId !in SUBSTANCE_IDS;
  }

  /** A numbered health tag that is neither a disability tag nor the medication-use tag is a substance tag. */
  lemma SubstanceTagIn(r: seq<TagData>, f: IntakeForm, t: TagData)
    requires HealthFrom(r, f) && t.tagCategory == "health" && StartsWith(t.bcioId, "BCIO:0")
    requires t != DISABLED && t != LONG_TERM_DISABLED && t != MEDICATION_USE
    ensures t in r <==> t in SubstanceTags(f.substances, f.currentSubstanceUse)
  {
    if t in SubstanceTags(f.substances, f.currentSubstanceUse) {
      assert t in OfCategory(r, "health");
    }
    if t in r {
      HealthOrigin(r, f, t);
    }
  }

  /** A tag with a substance class id is numbered, and no disability or medication-use tag. */
  lemma SubstanceIdNumbered(t: TagData)
    requires t.bcioId in SUBSTANCE_IDS
    ensures StartsWith(t.bcioId, "BCIO:0")
    ensures t != DISABLED && t != LONG_TERM_DISABLED && t != MEDICATION_USE
  {
    NumberedIds(t.bcioId);
  }

  lemma SubstanceIn(r: seq<TagData>, f: IntakeForm)
    requires HealthFrom(r, f)
    ensures SUBSTANCE_HISTORY in r <==> TickedWithoutNone(f.substances)
    ensures SUBSTANCE_RECOVERY in r <==> TickedWithoutNone(f.substances) && f.currentSubstanceUse == "recovery"
    ensures ACTIVE_USE in r <==> TickedWithoutNone(f.substances) && f.currentSubstanceUse == "currently_using"
    ensures TickedWithoutNone(f.substances) ==>
              forall s :: s in f.substances && s in SUBSTANCE_MAP ==> Entry(SUBSTANCE_MAP, s, "health") in r
    ensures forall t :: t in r && t.tagCategory == "health" && t.bcioId in SUBSTANCE_IDS ==> TickedWithoutNone(f.substances)
  {
    SubstanceTagsMembers(f.substances, f.currentSubstanceUse);
    NumberedIds(SUBSTANCE_HISTORY.bcioId);
    NumberedIds(SUBSTANCE_RECOVERY.bcioId);
    NumberedIds(ACTIVE_USE.bcioId);
    SubstanceTagIn(r, f, SUBSTANCE_HISTORY);
    SubstanceTagIn(r, f, SUBSTANCE_RECOVERY);
    SubstanceTagIn(r, f, ACTIVE_USE);
    forall s | TickedWithoutNone(f.substances) && s in f.substances && s in SUBSTANCE_MAP
      ensures Entry(SUBSTANCE_MAP, s, "health") in r
    {
      assert Entry(SUBSTANCE_MAP, s, "health") in OfCategory(r, "health");
    }
    forall t | t in r && t.tagCategory == "health" && t.bcioId in SUBSTANCE_IDS
      ensures TickedWithoutNone(f.substances)
    {
      SubstanceIdNumbered(t);
      SubstanceTagIn(r, f, t);
    }
  }

  /**
   * Ticking substances other than 'none' gives the substance-use-history tag and one tag per
   * known substance; substance tags appear only then, recovery and active use as reported.
   */
  lemma SubstanceUse(f: IntakeForm)
    ensures SUBSTANCE_HISTORY in BcioAttributes(f) <==> TickedWithoutNone(f.substances)
    ensures SUBSTANCE_RECOVERY in BcioAttributes(f)
            <==> TickedWithoutNone(f.substances) && f.currentSubstanceUse == "recovery"
    ensures ACTIVE_USE in BcioAttributes(f)
            <==> TickedWithoutNone(f.substances) && f.currentSubstanceUse == "currently_using"
    ensures TickedWithoutNone(f.substances) ==>
              forall s :: s in f.substances && s in SUBSTANCE_MAP ==> Entry(SUBSTANCE_MAP, s, "health") in BcioAttributes(f)
    ensures forall t :: t in BcioAttributes(f) && t.tagCategory == "health" && t.bcioId in SUBSTANCE_IDS
              ==> TickedWithoutNone(f.substances)
  {
    AttributesByCategory(f);
    SubstanceIn(BcioAttributes(f), f);
  }

  lemma MentalHealthIn(r: seq<TagData>, f: IntakeForm)
    requires HealthFrom(r, f)
    ensures TickedWithoutNone(f.mentalHealth) ==> forall c :: c in f.mentalHealth ==> Disclosed(c) in r
    ensures forall t :: t in r && t.tagCategory == "health" && StartsWith(t.bcioId, "DOID:")
              ==> TickedWithoutNone(f.mentalHealth)
  {
    forall c | TickedWithoutNone(f.mentalHealth) && c in f.mentalHealth
      ensures Disclosed(c) in r
    {
      assert Disclosed(c) in OfCategory(r, "health");
    }
    forall t | t in r && t.tagCategory == "health" && StartsWith(t.bcioId, "DOID:")
      ensures TickedWithoutNone(f.mentalHealth)
    {
      HealthOrigin(r, f, t);
    }
  }

  /**
   * With conditions ticked and 'none' not among them, every condition is disclosed as a DOID
   * tag; otherwise no DOID tag appears.
   */
  lemma MentalHealthDisclosed(f: IntakeForm)
    ensures TickedWithoutNone(f.mentalHealth) ==> forall c :: c in f.mentalHealth ==> Disclosed(c) in BcioAttributes(f)
    ensures forall t :: t in BcioAttributes(f) && t.tagCategory == "health" && StartsWith(t.bcioId, "DOID:")
              ==> TickedWithoutNone(f.mentalHealth)
  {
    AttributesByCategory(f);
    MentalHealthIn(BcioAttributes(f), f);
  }

  /** The disability tags are numbered, and not substance or medication-use tags. */
  lemma DisabilityTagsApart()
    ensures StartsWith(DISABLED.bcioId, "BCIO:0") && StartsWith(LONG_TERM_DISABLED.bcioId, "BCIO:0")
    ensures DISABLED.bcioId !in SUBSTANCE_IDS && LONG_TERM_DISABLED.bcioId !in SUBSTANCE_IDS
    ensures DISABLED != MEDICATION_USE && LONG_TERM_DISABLED != MEDICATION_USE
  {
    NumberedIds(DISABLED.bcioId);
    NumberedIds(LONG_TERM_DISABLED.bcioId);
  }

  lemma DisabilityIn(r: seq<TagData>, f: IntakeForm)
    requires HealthFrom(r, f)
    ensures DISABLED in r <==> f.disabilityStatus == "has_disability"
    ensures LONG_TERM_DISABLED in r <==> f.disabilityStatus == "has_disability" && f.disabilityDuration == "long_term"
  {
    var d := DisabilityTags(f.disabilityStatus, f.disabilityDuration);
    DisabilityTagsApart();
    if DISABLED in d {
      assert DISABLED in OfCategory(r, "health");
    }
    if LONG_TERM_DISABLED in d {
      assert LONG_TERM_DISABLED in OfCategory(r, "health");
    }
    if DISABLED in r {
      HealthOrigin(r, f, DISABLED);
    }
    if LONG_TERM_DISABLED in r {
      HealthOrigin(r, f, LONG_TERM_DISABLED);
    }
  }

  /** A disability gives the disabled tag, and a long-term one the long-term tag too. */
  lemma DisabilityTagged(f: IntakeForm)
    ensures DISABLED in BcioAttributes(f) <==> f.disabilityStatus == "has_disability"
    ensures LONG_TERM_DISABLED in BcioAttributes(f)
            <==> f.disabilityStatus == "has_disability" && f.disabilityDuration == "long_term"
  {
    AttributesByCategory(f);
    DisabilityIn(BcioAttributes(f), f);
  }

  /** The medication-use tag is numbered, and no substance or disability tag. */
  lemma MedicationUseApart(substances: seq<string>, currentUse: string, status: string, duration: string)
    ensures StartsWith(MEDICATION_USE.bcioId, "BCIO:0")
    ensures MEDICATION_USE !in SubstanceTags(substances, currentUse)
    ensures MEDICATION_USE !in DisabilityTags(status, duration)
  {
    NumberedIds(MEDICATION_USE.bcioId);
    assert MEDICATION_USE.bcioId !in SUBSTANCE_IDS;
  }

  lemma MedicationIn(r: seq<TagData>, f: IntakeForm)
    requires HealthFrom(r, f)
    ensures MEDICATION_USE in r <==> f.medicationUse == "yes"
    ensures f.medicationUse == "yes" ==> forall m :: m in f.medicationTypes ==> MedicationTag(m) in r
    ensures forall t :: t in r && t.tagCategory == "health" && StartsWith(t.bcioId, "BCIO:med_")
              ==> f.medicationUse == "yes"
  {
    var med := MedicationTags(f.medicationUse, f.medicationTypes);
    forall t | t in med
      ensures t in r
    {
      assert t in OfCategory(r, "health");
    }
    if MEDICATION_USE in r {
      MedicationUseApart(f.substances, f.currentSubstanceUse, f.disabilityStatus, f.disabilityDuration);
      HealthOrigin(r, f, MEDICATION_USE);
    }
    forall t | t in r && t.tagCategory == "health" && StartsWith(t.bcioId, "BCIO:med_")
      ensures f.medicationUse == "yes"
    {
      HealthOrigin(r, f, t);
    }
  }

  /**
   * Medication use "yes" gives the medication-use tag and one tag per medication type; the
   * medication tags appear only then.
   */
  lemma MedicationTagged(f: IntakeForm)
    ensures MEDICATION_USE in BcioAttributes(f) <==> f.medicationUse == "yes"
    ensures f.medicationUse == "yes" ==> forall m :: m in f.medicationTypes ==> MedicationTag(m) in BcioAttributes(f)
    ensures forall t :: t in BcioAttributes(f) && t.tagCategory == "health" && StartsWith(t.bcioId, "BCIO:med_")
              ==> f.medicationUse == "yes"
  {
    AttributesByCategory(f);
    MedicationIn(BcioAttributes(f), f);
  }

  /** The only tag of a category filled by one table lookup is that lookup's entry. */
  lemma TableIn(r: seq<TagData>, table: map<string, (string, string)>, key: string, category: string)
    requires OfCategory(r, category) == (if key in table then [Entry(table, key, category)] else [])
    ensures key in table ==> Entry(table, key, category) in r
    ensures forall t :: t in r && t.tagCategory == category ==> key in table && t == Entry(table, key, category)
  {
    if key in table {
      assert Entry(table, key, category) in OfCategory(r, category);
    }
    forall t | t in r && t.tagCategory == category
      ensures key in table && t == Entry(table, key, category)
    {
      assert t in OfCategory(r, category);
    }
  }

  /** A known education level and relationship status each give their one tag, and nothing else does. */
  lemma EducationAndRelationship(f: IntakeForm)
    ensures f.educationLevel in EDUCATION_MAP ==> Entry(EDUCATION_MAP, f.educationLevel, "education") in BcioAttributes(f)
    ensures forall t :: t in BcioAttributes(f) && t.tagCategory == "education"
              ==> f.educationLevel in EDUCATION_MAP && t == Entry(EDUCATION_MAP, f.educationLevel, "education")
    ensures f.relationshipStatus in RELATIONSHIP_MAP
            ==> Entry(RELATIONSHIP_MAP, f.relationshipStatus, "relationship") in BcioAttributes(f)
    ensures forall t :: t in BcioAttributes(f) && t.tagCategory == "relationship"
              ==> f.relationshipStatus in RELATIONSHIP_MAP
                  && t == Entry(RELATIONSHIP_MAP, f.relationshipStatus, "relationship")
  {
    AttributesByCategory(f);
    TableIn(BcioAttributes(f), EDUCATION_MAP, f.educationLevel, "education");
    TableIn(BcioAttributes(f), RELATIONSHIP_MAP, f.relationshipStatus, "relationship");
  }

  lemma EmploymentIn(r: seq<TagData>, employment: string)
    requires OfCategory(r, "employment") == EmploymentTags(employment)
    ensures EMPLOYED in r <==> employment == "full_time" || employment == "part_time"
    ensures UNEMPLOYED in r <==> employment == "unemployed_seeking"
    ensures JOB_SEEKING in r <==> employment == "unemployed_seeking"
    ensures UNABLE_TO_WORK in r <==> employment == "unable"
  {
    forall t | t in [EMPLOYED, UNEMPLOYED, JOB_SEEKING, UNABLE_TO_WORK]
      ensures t in r <==> t in EmploymentTags(employment)
    {
      assert t in r <==> t in OfCategory(r, "employment");
    }
  }

  /** Full- or part-time work gives employed, seeking work unemployed and job seeking, inability unable to work. */
  lemma EmploymentTagged(f: IntakeForm)
    ensures EMPLOYED in BcioAttributes(f) <==> f.employmentStatus == "full_time" || f.employmentStatus == "part_time"
    ensures UNEMPLOYED in BcioAttributes(f) <==> f.employmentStatus == "unemployed_seeking"
    ensures JOB_SEEKING in BcioAttributes(f) <==> f.employmentStatus == "unemployed_seeking"
    ensures UNABLE_TO_WORK in BcioAttributes(f) <==> f.employmentStatus == "unable"
  {
    AttributesByCategory(f);
    EmploymentIn(BcioAttributes(f), f.employmentStatus);
  }
}
