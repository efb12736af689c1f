/** The static reference data of the benchmark repository: age ranges, the
    per-test/per-age-group/per-gender threshold tables, the sport profiles and
    the national percentile brackets. Nothing here is ever updated; the
    lemmas state the shape the scoring logic relies on. */
module BenchmarkTables {
  import opened Wrappers
  import opened FitnessTests

  // ---------------------------------------------------------------------
  // Age groups

  datatype AgeGroup = Youth | Junior | Adult | Senior | Masters

  /** A closed range of ages `[minAge, maxAge]` and the group it selects. */
  datatype AgeRange = AgeRange(minAge: int, maxAge: int, group: AgeGroup)

  /** The declared ranges, in declaration order (the scan order). */
  const AgeGroups: seq<AgeRange> := [
    AgeRange(12, 15, Youth),
    AgeRange(16, 19, Junior),
    AgeRange(20, 25, Adult),
    AgeRange(26, 30, Senior),
    AgeRange(31, 40, Masters)]

  /** The group used when no declared range holds the age. */
  const DefaultAgeGroup: AgeGroup := Adult

  predicate Contains(r: AgeRange, age: int) {
    r.minAge <= age <= r.maxAge
  }

  predicate PairwiseDisjoint(rs: seq<AgeRange>) {
    forall i, j | 0 <= i < j < |rs| :: rs[i].maxAge < rs[j].minAge || rs[j].maxAge < rs[i].minAge
  }

  /** Some declared range holds `age`. */
  predicate Declared(age: int) {
    exists i | 0 <= i < |AgeGroups| :: Contains(AgeGroups[i], age)
  }

  /** The declared ranges do not overlap, and together they cover exactly the
      ages 12 to 40. */
  lemma AgeGroupsShape()
    ensures PairwiseDisjoint(AgeGroups)
    ensures forall age: int :: Declared(age) <==> 12 <= age <= 40
  {
    forall age: int
      ensures Declared(age) <==> 12 <= age <= 40
    {
      if age < 12 || age > 40 {
        assert forall i | 0 <= i < |AgeGroups| :: !Contains(AgeGroups[i], age);
      } else if age <= 15 {
        assert Contains(AgeGroups[0], age);
      } else if age <= 19 {
        assert Contains(AgeGroups[1], age);
      } else if age <= 25 {
        assert Contains(AgeGroups[2], age);
      } else if age <= 30 {
        assert Contains(AgeGroups[3], age);
      } else {
        assert Contains(AgeGroups[4], age);
      }
    }
  }

  // ---------------------------------------------------------------------
  // Performance benchmarks

  /** The four floor values of one metric. */
  datatype Thresholds = Thresholds(excellent: real, good: real, average: real, poor: real)

  /** Metric name to its thresholds, for one (test, age group, gender). */
  type MetricTable = map<string, Thresholds>

  /** The genders the tables are keyed by. */
  datatype Gender = Male | Female

  function GenderName(g: Gender): string {
    match g
    case Male => "Male"
    case Female => "Female"
  }

  /** The stored gender a gender key names, if any ("Other" names none). */
  function GenderNamed(name: string): (r: Option<Gender>)
    ensures r.Some? ==> GenderName(r.value) == name
  {
    if name == "Male" then Some(Male)
    else if name == "Female" then Some(Female)
    else None
  }

  /** Every stored gender is found again under its own key. */
  lemma GenderNamedName(g: Gender)
    ensures GenderNamed(GenderName(g)) == Some(g)
  {
  }

  /** The flat table returned when no stored benchmark applies. */
  const DefaultThresholds: Thresholds := Thresholds(90.0, 75.0, 60.0, 40.0)

  predicate Ordered(t: Thresholds) {
    t.excellent >= t.good >= t.average >= t.poor
  }

  predicate TableOrdered(m: MetricTable) {
    forall k | k in m :: Ordered(m[k])
  }

  /** The stored thresholds of the "Vertical Jump" test. */
  function VerticalJumpTable(group: AgeGroup, gender: Gender): MetricTable {
    match group
    case Youth =>
      if gender == Male then
        map[
          "jump_height" := Thresholds(45.0, 35.0, 25.0, 15.0),
          "flight_time" := Thresholds(0.8, 0.6, 0.4, 0.2),
          "technique_score" := Thresholds(90.0, 75.0, 60.0, 40.0)]
      else
        map[
          "jump_height" := Thresholds(40.0, 30.0, 22.0, 12.0),
          "flight_time" := Thresholds(0.7, 0.55, 0.35, 0.18),
          "technique_score" := Thresholds(90.0, 75.0, 60.0, 40.0)]
    case Junior =>
      if gender == Male then
        map[
          "jump_height" := Thresholds(55.0, 45.0, 35.0, 20.0),
          "flight_time" := Thresholds(0.9, 0.7, 0.5, 0.25),
          "technique_score" := Thresholds(90.0, 75.0, 60.0, 40.0)]
      else
        map[
          "jump_height" := Thresholds(48.0, 38.0, 28.0, 18.0),
          "flight_time" := Thresholds(0.8, 0.6, 0.4, 0.22),
          "technique_score" := Thresholds(90.0, 75.0, 60.0, 40.0)]
    case Adult =>
      if gender == Male then
        map[
          "jump_height" := Thresholds(60.0, 50.0, 40.0, 25.0),
          "flight_time" := Thresholds(1.0, 0.8, 0.6, 0.3),
          "technique_score" := Thresholds(90.0, 75.0, 60.0, 40.0)]
      else
        map[
          "jump_height" := Thresholds(52.0, 42.0, 32.0, 22.0),
          "flight_time" := Thresholds(0.85, 0.65, 0.45, 0.25),
          "technique_score" := Thresholds(90.0, 75.0, 60.0, 40.0)]
    case Senior =>
      if gender == Male then
        map[
          "jump_height" := Thresholds(55.0, 45.0, 35.0, 22.0),
          "flight_time" := Thresholds(0.9, 0.7, 0.5, 0.28),
          "technique_score" := Thresholds(90.0, 75.0, 60.0, 40.0)]
      else
        map[
          "jump_height" := Thresholds(48.0, 38.0, 28.0, 18.0),
          "flight_time" := Thresholds(0.8, 0.6, 0.4, 0.22),
          "technique_score" := Thresholds(90.0, 75.0, 60.0, 40.0)]
    case Masters =>
      if gender == Male then
        map[
          "jump_height" := Thresholds(50.0, 40.0, 30.0, 20.0),
          "flight_time" := Thresholds(0.8, 0.6, 0.45, 0.25),
          "technique_score" := Thresholds(90.0, 75.0, 60.0, 40.0)]
      else
        map[
          "jump_height" := Thresholds(42.0, 32.0, 24.0, 16.0),
          "flight_time" := Thresholds(0.7, 0.5, 0.35, 0.2),
          "technique_score" := Thresholds(90.0, 75.0, 60.0, 40.0)]
  }

  lemma VerticalJumpTableOrdered()
    ensures forall group, gender :: TableOrdered(VerticalJumpTable(group, gender))
  {
  }

  /** The stored thresholds of the "Sit-ups (1 minute)" test. */
  function SitUpsTable(group: AgeGroup, gender: Gender): MetricTable {
    match group
    case Youth =>
      if gender == Male then
        map[
          "rep_count" := Thresholds(45.0, 35.0, 25.0, 15.0),
          "cadence" := Thresholds(50.0, 40.0, 30.0, 20.0),
          "form_score" := Thresholds(90.0, 75.0, 60.0, 40.0)]
      else
        map[
          "rep_count" := Thresholds(40.0, 30.0, 22.0, 12.0),
          "cadence" := Thresholds(45.0, 35.0, 26.0, 16.0),
          "form_score" := Thresholds(90.0, 75.0, 60.0, 40.0)]
    case Junior =>
      if gender == Male then
        map[
          "rep_count" := Thresholds(55.0, 45.0, 35.0, 20.0),
          "cadence" := Thresholds(60.0, 50.0, 40.0, 25.0),
          "form_score" := Thresholds(90.0, 75.0, 60.0, 40.0)]
      else
        map[
          "rep_count" := Thresholds(50.0, 40.0, 30.0, 18.0),
          "cadence" := Thresholds(55.0, 45.0, 35.0, 22.0),
          "form_score" := Thresholds(90.0, 75.0, 60.0, 40.0)]
    case Adult =>
      if gender == Male then
        map[
          "rep_count" := Thresholds(60.0, 50.0, 40.0, 25.0),
          "cadence" := Thresholds(65.0, 55.0, 45.0, 30.0),
          "form_score" := Thresholds(90.0, 75.0, 60.0, 40.0)]
      else
        map[
          "rep_count" := Thresholds(55.0, 45.0, 35.0, 22.0),
          "cadence" := Thresholds(60.0, 50.0, 40.0, 26.0),
          "form_score" := Thresholds(90.0, 75.0, 60.0, 40.0)]
    case Senior =>
      if gender == Male then
        map[
          "rep_count" := Thresholds(55.0, 45.0, 35.0, 22.0),
          "cadence" := Thresholds(60.0, 50.0, 40.0, 28.0),
          "form_score" := Thresholds(90.0, 75.0, 60.0, 40.0)]
      else
        map[
          "rep_count" := Thresholds(48.0, 38.0, 28.0, 18.0),
          "cadence" := Thresholds(55.0, 45.0, 35.0, 24.0),
          "form_score" := Thresholds(90.0, 75.0, 60.0, 40.0)]
    case Masters =>
      if gender == Male then
        map[
          "rep_count" := Thresholds(50.0, 40.0, 30.0, 20.0),
          "cadence" := Thresholds(55.0, 45.0, 35.0, 25.0),
          "form_score" := Thresholds(90.0, 75.0, 60.0, 40.0)]
      else
        map[
          "rep_count" := Thresholds(42.0, 32.0, 24.0, 16.0),
          "cadence" := Thresholds(48.0, 38.0, 28.0, 20.0),
          "form_score" := Thresholds(90.0, 75.0, 60.0, 40.0)]
  }

  lemma SitUpsTableOrdered()
    ensures forall group, gender :: TableOrdered(SitUpsTable(group, gender))
  {
  }

  /** The stored thresholds of the "50m Sprint" test. */
  function SprintTable(group: AgeGroup, gender: Gender): MetricTable {
    match group
    case Youth =>
      if gender == Male then
        map[
          "speed" := Thresholds(12.0, 10.0, 8.0, 6.0),
          "acceleration" := Thresholds(90.0, 75.0, 60.0, 40.0),
          "technique_score" := Thresholds(90.0, 75.0, 60.0, 40.0)]
      else
        map[
          "speed" := Thresholds(10.0, 8.5, 7.0, 5.0),
          "acceleration" := Thresholds(90.0, 75.0, 60.0, 40.0),
          "technique_score" := Thresholds(90.0, 75.0, 60.0, 40.0)]
    case Junior =>
      if gender == Male then
        map[
          "speed" := Thresholds(15.0, 12.0, 10.0, 7.0),
          "acceleration" := Thresholds(90.0, 75.0, 60.0, 40.0),
          "technique_score" := Thresholds(90.0, 75.0, 60.0, 40.0)]
      else
        map[
          "speed" := Thresholds(13.0, 10.5, 8.5, 6.0),
          "acceleration" := Thresholds(90.0, 75.0, 60.0, 40.0),
          "technique_score" := Thresholds(90.0, 75.0, 60.0, 40.0)]
    case Adult =>
      if gender == Male then
        map[
          "speed" := Thresholds(18.0, 15.0, 12.0, 8.0),
          "acceleration" := Thresholds(90.0, 75.0, 60.0, 40.0),
          "technique_score" := Thresholds(90.0, 75.0, 60.0, 40.0)]
      else
        map[
          "speed" := Thresholds(15.0, 12.0, 10.0, 7.0),
          "acceleration" := Thresholds(90.0, 75.0, 60.0, 40.0),
          "technique_score" := Thresholds(90.0, 75.0, 60.0, 40.0)]
    case Senior =>
      if gender == Male then
        map[
          "speed" := Thresholds(16.0, 13.0, 10.0, 7.0),
          "acceleration" := Thresholds(90.0, 75.0, 60.0, 40.0),
          "technique_score" := Thresholds(90.0, 75.0, 60.0, 40.0)]
      else
        map[
          "speed" := Thresholds(13.0, 10.5, 8.5, 6.0),
          "acceleration" := Thresholds(90.0, 75.0, 60.0, 40.0),
          "technique_score" := Thresholds(90.0, 75.0, 60.0, 40.0)]
    case Masters =>
      if gender == Male then
        map[
          "speed" := Thresholds(14.0, 11.0, 9.0, 6.0),
          "acceleration" := Thresholds(90.0, 75.0, 60.0, 40.0),
          "technique_score" := Thresholds(90.0, 75.0, 60.0, 40.0)]
      else
        map[
          "speed" := Thresholds(11.0, 9.0, 7.5, 5.0),
          "acceleration" := Thresholds(90.0, 75.0, 60.0, 40.0),
          "technique_score" := Thresholds(90.0, 75.0, 60.0, 40.0)]
  }

  lemma SprintTableOrdered()
    ensures forall group, gender :: TableOrdered(SprintTable(group, gender))
  {
  }

  /** The stored thresholds of the "Push-ups" test. */
  function PushUpsTable(group: AgeGroup, gender: Gender): MetricTable {
    match group
    case Youth =>
      if gender == Male then
        map[
          "rep_count" := Thresholds(35.0, 25.0, 18.0, 10.0),
          "form_score" := Thresholds(90.0, 75.0, 60.0, 40.0),
          "endurance" := Thresholds(85.0, 70.0, 55.0, 35.0)]
      else
        map[
          "rep_count" := Thresholds(25.0, 18.0, 12.0, 6.0),
          "form_score" := Thresholds(90.0, 75.0, 60.0, 40.0),
          "endurance" := Thresholds(85.0, 70.0, 55.0, 35.0)]
    case Junior =>
      if gender == Male then
        map[
          "rep_count" := Thresholds(45.0, 35.0, 25.0, 15.0),
          "form_score" := Thresholds(90.0, 75.0, 60.0, 40.0),
          "endurance" := Thresholds(85.0, 70.0, 55.0, 35.0)]
      else
        map[
          "rep_count" := Thresholds(30.0, 22.0, 16.0, 8.0),
          "form_score" := Thresholds(90.0, 75.0, 60.0, 40.0),
          "endurance" := Thresholds(85.0, 70.0, 55.0, 35.0)]
    case Adult =>
      if gender == Male then
        map[
          "rep_count" := Thresholds(50.0, 40.0, 30.0, 18.0),
          "form_score" := Thresholds(90.0, 75.0, 60.0, 40.0),
          "endurance" := Thresholds(85.0, 70.0, 55.0, 35.0)]
      else
        map[
          "rep_count" := Thresholds(35.0, 25.0, 18.0, 10.0),
          "form_score" := Thresholds(90.0, 75.0, 60.0, 40.0),
          "endurance" := Thresholds(85.0, 70.0, 55.0, 35.0)]
    case Senior =>
      if gender == Male then
        map[
          "rep_count" := Thresholds(45.0, 35.0, 25.0, 15.0),
          "form_score" := Thresholds(90.0, 75.0, 60.0, 40.0),
          "endurance" := Thresholds(85.0, 70.0, 55.0, 35.0)]
      else
        map[
          "rep_count" := Thresholds(30.0, 22.0, 16.0, 8.0),
          "form_score" := Thresholds(90.0, 75.0, 60.0, 40.0),
          "endurance" := Thresholds(85.0, 70.0, 55.0, 35.0)]
    case Masters =>
      if gender == Male then
        map[
          "rep_count" := Thresholds(40.0, 30.0, 22.0, 12.0),
          "form_score" := Thresholds(90.0, 75.0, 60.0, 40.0),
          "endurance" := Thresholds(85.0, 70.0, 55.0, 35.0)]
      else
        map[
          "rep_count" := Thresholds(25.0, 18.0, 12.0, 6.0),
          "form_score" := Thresholds(90.0, 75.0, 60.0, 40.0),
          "endurance" := Thresholds(85.0, 70.0, 55.0, 35.0)]
  }

  lemma PushUpsTableOrdered()
    ensures forall group, gender :: TableOrdered(PushUpsTable(group, gender))
  {
  }

  /** The stored thresholds of the "Flexibility Test" test. */
  function FlexibilityTable(group: AgeGroup, gender: Gender): MetricTable {
    match group
    case Youth =>
      if gender == Male then
        map[
          "reach_distance" := Thresholds(15.0, 10.0, 5.0, 0.0),
          "stability" := Thresholds(95.0, 85.0, 70.0, 50.0),
          "technique_score" := Thresholds(90.0, 75.0, 60.0, 40.0)]
      else
        map[
          "reach_distance" := Thresholds(18.0, 13.0, 8.0, 2.0),
          "stability" := Thresholds(95.0, 85.0, 70.0, 50.0),
          "technique_score" := Thresholds(90.0, 75.0, 60.0, 40.0)]
    case Junior =>
      if gender == Male then
        map[
          "reach_distance" := Thresholds(18.0, 13.0, 8.0, 2.0),
          "stability" := Thresholds(95.0, 85.0, 70.0, 50.0),
          "technique_score" := Thresholds(90.0, 75.0, 60.0, 40.0)]
      else
        map[
          "reach_distance" := Thresholds(22.0, 17.0, 12.0, 5.0),
          "stability" := Thresholds(95.0, 85.0, 70.0, 50.0),
          "technique_score" := Thresholds(90.0, 75.0, 60.0, 40.0)]
    case Adult =>
      if gender == Male then
        map[
          "reach_distance" := Thresholds(20.0, 15.0, 10.0, 3.0),
          "stability" := Thresholds(95.0, 85.0, 70.0, 50.0),
          "technique_score" := Thresholds(90.0, 75.0, 60.0, 40.0)]
      else
        map[
          "reach_distance" := Thresholds(25.0, 20.0, 15.0, 8.0),
          "stability" := Thresholds(95.0, 85.0, 70.0, 50.0),
          "technique_score" := Thresholds(90.0, 75.0, 60.0, 40.0)]
    case Senior =>
      if gender == Male then
        map[
          "reach_distance" := Thresholds(18.0, 13.0, 8.0, 2.0),
          "stability" := Thresholds(95.0, 85.0, 70.0, 50.0),
          "technique_score" := Thresholds(90.0, 75.0, 60.0, 40.0)]
      else
        map[
          "reach_distance" := Thresholds(22.0, 17.0, 12.0, 5.0),
          "stability" := Thresholds(95.0, 85.0, 70.0, 50.0),
          "technique_score" := Thresholds(90.0, 75.0, 60.0, 40.0)]
    case Masters =>
      if gender == Male then
        map[
          "reach_distance" := Thresholds(15.0, 10.0, 5.0, 0.0),
          "stability" := Thresholds(95.0, 85.0, 70.0, 50.0),
          "technique_score" := Thresholds(90.0, 75.0, 60.0, 40.0)]
      else
        map[
          "reach_distance" := Thresholds(18.0, 13.0, 8.0, 2.0),
          "stability" := Thresholds(95.0, 85.0, 70.0, 50.0),
          "technique_score" := Thresholds(90.0, 75.0, 60.0, 40.0)]
  }

  lemma FlexibilityTableOrdered()
    ensures forall group, gender :: TableOrdered(FlexibilityTable(group, gender))
  {
  }

  /** The stored table of a test type: every age group and both genders
      have one. */
  function StoredTable(testType: string, group: AgeGroup, gender: Gender): MetricTable
    requires testType in TestTypes
  {
    if testType == VerticalJump then VerticalJumpTable(group, gender)
    else if testType == SitUps then SitUpsTable(group, gender)
    else if testType == Sprint then SprintTable(group, gender)
    else if testType == PushUps then PushUpsTable(group, gender)
    else FlexibilityTable(group, gender)
  }

  /** excellent >= good >= average >= poor holds of every stored threshold
      record, and of the default one. */
  lemma StoredThresholdsOrdered()
    ensures forall t, group, gender | t in TestTypes :: TableOrdered(StoredTable(t, group, gender))
    ensures Ordered(DefaultThresholds)
  {
    VerticalJumpTableOrdered();
    SitUpsTableOrdered();
    SprintTableOrdered();
    PushUpsTableOrdered();
    FlexibilityTableOrdered();
  }

  // ---------------------------------------------------------------------
  // Sport profiles

  /** A sport's critical tests (in declaration order), their weights and the
      two talent thresholds. */
  datatype SportProfile = SportProfile(
    criticalTests: seq<string>,
    weightFactors: map<string, real>,
    eliteThreshold: real,
    talentThreshold: real)

  const SportSpecificBenchmarks: map<string, SportProfile> := map[
    "Athletics" := SportProfile([VerticalJump, Sprint], map[VerticalJump := 0.4, Sprint := 0.6], 85.0, 75.0),
    "Football" := SportProfile([Sprint, PushUps], map[Sprint := 0.5, PushUps := 0.5], 80.0, 70.0),
    "Swimming" := SportProfile([PushUps, Flexibility], map[PushUps := 0.6, Flexibility := 0.4], 82.0, 72.0),
    "Wrestling" := SportProfile([SitUps, PushUps], map[SitUps := 0.5, PushUps := 0.5], 83.0, 73.0),
    "Basketball" := SportProfile([VerticalJump, Sprint], map[VerticalJump := 0.7, Sprint := 0.3], 84.0, 74.0),
    "Boxing" := SportProfile([PushUps, SitUps], map[PushUps := 0.5, SitUps := 0.5], 81.0, 71.0)]

  /** The fixed score from which a sport result is "Moderate Potential". */
  const ModerateThreshold: real := 60.0

  /** The tier thresholds are strictly ordered above the fixed moderate cut,
      and every critical test is a known test with a positive weight. */
  predicate WellFormedProfile(p: SportProfile) {
    && p.eliteThreshold > p.talentThreshold > ModerateThreshold
    && |p.criticalTests| >= 1
    && forall t | t in p.criticalTests :: t in TestTypes && t in p.weightFactors && p.weightFactors[t] > 0.0
  }

  lemma SportProfilesWellFormed()
    ensures forall sport | sport in SportSpecificBenchmarks :: WellFormedProfile(SportSpecificBenchmarks[sport])
  {
  }

  // ---------------------------------------------------------------------
  // National percentile brackets

  /** A closed score range `[lo, hi]` and its description. */
  datatype Bracket = Bracket(lo: real, hi: real, description: string)

  const NationalPercentiles: map<nat, Bracket> := map[
    50 := Bracket(40.0, 60.0, "Average national performance"),
    75 := Bracket(60.0, 75.0, "Above average national performance"),
    90 := Bracket(75.0, 85.0, "Excellent national performance"),
    95 := Bracket(85.0, 95.0, "Elite national performance"),
    99 := Bracket(95.0, 100.0, "World-class performance")]

  /** The percentile keys sorted in descending order: the order in which the
      brackets are tried. */
  const NationalScanOrder: seq<nat> := [99, 95, 90, 75, 50]

  /** The scan order is exactly the table's keys, strictly descending; each
      bracket starts where the next lower one ends, so the brackets cover
      [40, 100] and neighbours share one endpoint. */
  lemma NationalPercentilesShape()
    ensures forall p :: p in NationalScanOrder <==> p in NationalPercentiles
    ensures forall i, j | 0 <= i < j < |NationalScanOrder| :: NationalScanOrder[i] > NationalScanOrder[j]
    ensures forall i | 0 <= i < |NationalScanOrder| - 1 ::
      NationalPercentiles[NationalScanOrder[i]].lo == NationalPercentiles[NationalScanOrder[i + 1]].hi
    ensures NationalPercentiles[NationalScanOrder[0]].hi == 100.0
    ensures NationalPercentiles[NationalScanOrder[|NationalScanOrder| - 1]].lo == 40.0
  {
  }
}
