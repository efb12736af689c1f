/** The decision logic on top of the reference tables: resolving the
    benchmark for an athlete, the sport-specific talent assessment and the
    comparison with national standards. Every operation is total: unknown
    inputs fall back to a fixed value instead of failing. */
module Benchmarks {
  import opened Wrappers
  import opened Decimal
  import opened FitnessTests
  import opened BenchmarkTables

  // ---------------------------------------------------------------------
  // Age group and benchmark lookup

  /** The group of the first range of `ranges` that holds `age`. */
  function FirstMatch(ranges: seq<AgeRange>, age: int): (r: Option<AgeGroup>)
    ensures r.None? <==> forall i | 0 <= i < |ranges| :: !Contains(ranges[i], age)
    ensures r.Some? ==> exists i | 0 <= i < |ranges| :: Contains(ranges[i], age) && ranges[i].group == r.value
    decreases |ranges|
  {
    if ranges == [] then None
    else if Contains(ranges[0], age) then Some(ranges[0].group)
    else
      var r := FirstMatch(ranges[1..], age);
      assert r.Some? ==> exists i | 1 <= i < |ranges| :: Contains(ranges[i], age) && ranges[i].group == r.value by {
        if r.Some? {
          var k :| 0 <= k < |ranges[1..]| && Contains(ranges[1..][k], age) && ranges[1..][k].group == r.value;
          assert ranges[k + 1] == ranges[1..][k];
        }
      }
      r
  }

  /** The age group of an athlete: the first declared range holding the age,
      or the default group. */
  function AgeGroupOf(age: int): (g: AgeGroup)
    ensures g == DefaultAgeGroup || exists i | 0 <= i < |AgeGroups| :: Contains(AgeGroups[i], age) && AgeGroups[i].group == g
    ensures !(12 <= age <= 40) ==> g == DefaultAgeGroup
  {
    match FirstMatch(AgeGroups, age)
    case Some(g) => g
    case None => DefaultAgeGroup
  }

  /** Over pairwise disjoint ranges, the first match is the only match. */
  lemma {:induction false} FirstMatchIsUniqueMatch(ranges: seq<AgeRange>, age: int, i: int)
    requires PairwiseDisjoint(ranges)
    requires 0 <= i < |ranges| && Contains(ranges[i], age)
    ensures FirstMatch(ranges, age) == Some(ranges[i].group)
  {
    if i > 0 {
      assert !Contains(ranges[0], age);
      assert ranges[1..][i - 1] == ranges[i];
      FirstMatchIsUniqueMatch(ranges[1..], age, i - 1);
    }
  }

  /** An age inside a declared range gets that range's group. */
  lemma AgeGroupOfDeclaredRange(age: int, i: int)
    requires 0 <= i < |AgeGroups| && Contains(AgeGroups[i], age)
    ensures AgeGroupOf(age) == AgeGroups[i].group
  {
    AgeGroupsShape();
    FirstMatchIsUniqueMatch(AgeGroups, age, i);
  }

  /** The age group as a plain band table: 12-15 Youth, 16-19 Junior, 20-25
      Adult, 26-30 Senior, 31-40 Masters, every other age (5, 11, 41, a
      negative age) Adult. */
  lemma AgeGroupOfBands(age: int)
    ensures AgeGroupOf(age) ==
      if 12 <= age <= 15 then Youth
      else if 16 <= age <= 19 then Junior
      else if 20 <= age <= 25 then Adult
      else if 26 <= age <= 30 then Senior
      else if 31 <= age <= 40 then Masters
      else Adult
  {
    AgeGroupsShape();
    if 12 <= age <= 15 { AgeGroupOfDeclaredRange(age, 0); }
    else if 16 <= age <= 19 { AgeGroupOfDeclaredRange(age, 1); }
    else if 20 <= age <= 25 { AgeGroupOfDeclaredRange(age, 2); }
    else if 26 <= age <= 30 { AgeGroupOfDeclaredRange(age, 3); }
    else if 31 <= age <= 40 { AgeGroupOfDeclaredRange(age, 4); }
    else { assert !Declared(age); }
  }

  /** What a benchmark lookup yields: a stored per-metric table, or the flat
      default thresholds. */
  datatype Benchmark = PerMetric(metrics: MetricTable) | Flat(thresholds: Thresholds)

  /** The benchmark for a test type, age group and gender key. Every stored
      test type holds every age group, so the age-group level of the lookup
      always succeeds; the test type and the gender key may be missing. */
  function BenchmarkFor(testType: string, group: AgeGroup, gender: string): (b: Benchmark)
    ensures b.PerMetric? ==> testType in TestTypes && (gender == "Male" || gender == "Female")
    ensures b.Flat? ==> b.thresholds == DefaultThresholds
  {
    var g := GenderNamed(gender);
    if testType in TestTypes && g.Some? then PerMetric(StoredTable(testType, group, g.value))
    else Flat(DefaultThresholds)
  }

  /** Resolves the age group by scanning the declared ranges in order (first
      match wins, default Adult), then looks the benchmark up. */
  method GetBenchmark(testType: string, age: int, gender: string) returns (b: Benchmark)
    ensures b == BenchmarkFor(testType, AgeGroupOf(age), gender)
  {
    var ageGroup := DefaultAgeGroup;
    var i := 0;
    while i < |AgeGroups|
      invariant 0 <= i <= |AgeGroups|
      invariant FirstMatch(AgeGroups[i..], age) == FirstMatch(AgeGroups, age)
      invariant ageGroup == DefaultAgeGroup
    {
      if Contains(AgeGroups[i], age) {
        ageGroup := AgeGroups[i].group;
        break;
      }
      i := i + 1;
    }
    assert ageGroup == AgeGroupOf(age);
    var g := GenderNamed(gender);
    if testType in TestTypes && g.Some? {
      b := PerMetric(StoredTable(testType, ageGroup, g.value));
    } else {
      b := Flat(DefaultThresholds);
    }
  }

  /** The stored table for the age group and gender is returned exactly when
      the test type is known and the gender is "Male" or "Female" (so "Other"
      always gets the default); in
      every case the thresholds returned are ordered. */
  lemma BenchmarkForStoredIff(testType: string, age: int, gender: string)
    ensures BenchmarkFor(testType, AgeGroupOf(age), gender).PerMetric?
      <==> testType in TestTypes && (gender == "Male" || gender == "Female")
    ensures BenchmarkFor(testType, AgeGroupOf(age), gender).PerMetric? ==>
      && testType in TestTypes
      && GenderNamed(gender).Some?
      && BenchmarkFor(testType, AgeGroupOf(age), gender).metrics
         == StoredTable(testType, AgeGroupOf(age), GenderNamed(gender).value)
    ensures BenchmarkFor(testType, AgeGroupOf(age), gender).Flat?
      ==> BenchmarkFor(testType, AgeGroupOf(age), gender).thresholds == Thresholds(90.0, 75.0, 60.0, 40.0)
    ensures match BenchmarkFor(testType, AgeGroupOf(age), gender)
      case PerMetric(m) => TableOrdered(m)
      case Flat(t) => Ordered(t)
  {
    StoredThresholdsOrdered();
  }

  /** A Vertical Jump athlete of 20 gets the Adult male table; unknown tests
      and the "Other" gender get the default. */
  lemma BenchmarkForExamples()
    ensures BenchmarkFor(VerticalJump, AgeGroupOf(20), "Male").metrics["jump_height"] == Thresholds(60.0, 50.0, 40.0, 25.0)
    ensures BenchmarkFor("Unknown Test", AgeGroupOf(20), "Male") == Flat(DefaultThresholds)
    ensures BenchmarkFor(PushUps, AgeGroupOf(20), "Other") == Flat(DefaultThresholds)
  {
    AgeGroupOfBands(20);
  }

  // ---------------------------------------------------------------------
  // Sport-specific assessment

  /** A test's weight in a sport: its weight factor, or 1.0 when it has none. */
  function WeightOf(p: SportProfile, test: string): real {
    if test in p.weightFactors then p.weightFactors[test] else 1.0
  }

  /** The sum of score times weight over the tests of `tests` that have a
      score. */
  function WeightedSum(p: SportProfile, tests: seq<string>, scores: map<string, real>): real
    decreases |tests|
  {
    if tests == [] then 0.0
    else
      var last := tests[|tests| - 1];
      WeightedSum(p, tests[..|tests| - 1], scores) + (if last in scores then scores[last] * WeightOf(p, last) else 0.0)
  }

  /** The sum of the weights of the tests of `tests` that have a score. */
  function TotalWeight(p: SportProfile, tests: seq<string>, scores: map<string, real>): real
    decreases |tests|
  {
    if tests == [] then 0.0
    else
      var last := tests[|tests| - 1];
      TotalWeight(p, tests[..|tests| - 1], scores) + (if last in scores then WeightOf(p, last) else 0.0)
  }

  /** The weighted average of the scored critical tests, or 0 when their
      total weight is not positive. */
  function SportScore(p: SportProfile, scores: map<string, real>): real {
    var total := TotalWeight(p, p.criticalTests, scores);
    if total > 0.0 then WeightedSum(p, p.criticalTests, scores) / total else 0.0
  }

  datatype TalentLevel = ElitePotential | HighPotential | ModeratePotential | Developing | Unknown

  function TalentLevelName(level: TalentLevel): string {
    match level
    case ElitePotential => "Elite Potential"
    case HighPotential => "High Potential"
    case ModeratePotential => "Moderate Potential"
    case Developing => "Developing"
    case Unknown => "Unknown"
  }

  /** The first tier whose floor the score reaches: the sport's elite
      threshold, its talent threshold, the fixed 60, else Developing. */
  function TalentLevelFor(p: SportProfile, score: real): (level: TalentLevel)
    ensures level != Unknown
    ensures level == ElitePotential <==> score >= p.eliteThreshold
  {
    if score >= p.eliteThreshold then ElitePotential
    else if score >= p.talentThreshold then HighPotential
    else if score >= ModerateThreshold then ModeratePotential
    else Developing
  }

  /** The order of the tiers, lowest first. */
  function TierRank(level: TalentLevel): nat {
    match level
    case Unknown => 0
    case Developing => 0
    case ModeratePotential => 1
    case HighPotential => 2
    case ElitePotential => 3
  }

  function Recommendation(sport: string, level: TalentLevel): string {
    match level
    case ElitePotential => "Exceptional talent for " + sport + ". Recommend immediate advanced training program."
    case HighPotential => "Strong potential for " + sport + ". Recommend specialized training and development."
    case ModeratePotential => "Shows promise for " + sport + ". Focus on specific skill development."
    case Developing => "Continue training fundamentals. Consider other sports that match strengths."
    case Unknown => "Sport-specific benchmarks not available"
  }

  /** The result of an assessment; the per-test breakdown is absent for an
      unknown sport. */
  datatype Assessment = Assessment(
    sportScore: real,
    talentLevel: TalentLevel,
    recommendation: string,
    criticalTestsPerformance: Option<map<string, real>>)

  const UnknownSportAssessment: Assessment :=
    Assessment(0.0, Unknown, "Sport-specific benchmarks not available", None)

  /** Each critical test with its score, or 0 when it has none. */
  function CriticalTestsPerformance(p: SportProfile, scores: map<string, real>): map<string, real> {
    map t | t in p.criticalTests :: if t in scores then scores[t] else 0.0
  }

  /** The assessment of `scores` for `sport`. */
  function SportAssessment(sport: string, scores: map<string, real>): (a: Assessment)
    ensures a.talentLevel == Unknown <==> sport !in SportSpecificBenchmarks
    ensures a.criticalTestsPerformance.Some? <==> sport in SportSpecificBenchmarks
    ensures a.recommendation == Recommendation(sport, a.talentLevel)
  {
    if sport !in SportSpecificBenchmarks then UnknownSportAssessment
    else
      var p := SportSpecificBenchmarks[sport];
      var score := SportScore(p, scores);
      var level := TalentLevelFor(p, score);
      Assessment(score, level, Recommendation(sport, level), Some(CriticalTestsPerformance(p, scores)))
  }

  /** Accumulates the weighted score and the total weight over the critical
      tests of `p` in declaration order. */
  method AccumulateScores(p: SportProfile, scores: map<string, real>) returns (weightedScore: real, totalWeight: real)
    ensures weightedScore == WeightedSum(p, p.criticalTests, scores)
    ensures totalWeight == TotalWeight(p, p.criticalTests, scores)
  {
    var tests := p.criticalTests;
    weightedScore, totalWeight := 0.0, 0.0;
    var i := 0;
    while i < |tests|
      invariant 0 <= i <= |tests|
      invariant weightedScore == WeightedSum(p, tests[..i], scores)
      invariant totalWeight == TotalWeight(p, tests[..i], scores)
    {
      var test := tests[i];
      assert tests[..i + 1][..i] == tests[..i];
      if test in scores {
        var weight := WeightOf(p, test);
        weightedScore := weightedScore + scores[test] * weight;
        totalWeight := totalWeight + weight;
      }
      i := i + 1;
    }
    assert tests[..i] == tests;
  }

  /** Looks the sport up, accumulates its weighted score and classifies the
      average. */
  method GetSportSpecificAssessment(sport: string, scores: map<string, real>) returns (a: Assessment)
    ensures a == SportAssessment(sport, scores)
  {
    if sport !in SportSpecificBenchmarks {
      return UnknownSportAssessment;
    }
    var p := SportSpecificBenchmarks[sport];
    var weightedScore, totalWeight := AccumulateScores(p, scores);
    var sportScore := if totalWeight > 0.0 then weightedScore / totalWeight else 0.0;
    var level := TalentLevelFor(p, sportScore);
    a := Assessment(sportScore, level, Recommendation(sport, level), Some(CriticalTestsPerformance(p, scores)));
  }

  /** An unknown sport gets the sentinel: score 0, level Unknown, the fixed
      recommendation and no breakdown. A known sport's breakdown has exactly
      its critical tests as keys, with 0 for a test without a score. */
  lemma SportAssessmentShape(sport: string, scores: map<string, real>)
    ensures var a := SportAssessment(sport, scores);
      sport !in SportSpecificBenchmarks ==>
        a.sportScore == 0.0 && a.talentLevel == Unknown
        && a.recommendation == "Sport-specific benchmarks not available"
        && a.criticalTestsPerformance.None?
    ensures var a := SportAssessment(sport, scores);
      sport in SportSpecificBenchmarks ==>
        && a.criticalTestsPerformance.Some?
        && a.criticalTestsPerformance.value.Keys == set t | t in SportSpecificBenchmarks[sport].criticalTests
        && forall t | t in SportSpecificBenchmarks[sport].criticalTests ::
             a.criticalTestsPerformance.value[t] == if t in scores then scores[t] else 0.0
  {
  }

  /** Scores agree on the tests of `tests`. */
  predicate AgreeOn(tests: seq<string>, s1: map<string, real>, s2: map<string, real>) {
    forall t | t in tests :: (t in s1 <==> t in s2) && (t in s1 ==> s1[t] == s2[t])
  }

  lemma {:induction false} SumsDependOnlyOnListedTests(p: SportProfile, tests: seq<string>, s1: map<string, real>, s2: map<string, real>)
    requires AgreeOn(tests, s1, s2)
    ensures WeightedSum(p, tests, s1) == WeightedSum(p, tests, s2)
    ensures TotalWeight(p, tests, s1) == TotalWeight(p, tests, s2)
    decreases |tests|
  {
    if tests != [] {
      var init := tests[..|tests| - 1];
      assert forall t | t in init :: t in tests;
      SumsDependOnlyOnListedTests(p, init, s1, s2);
    }
  }

  /** Scores of tests that are not critical for the sport have no effect on
      its score, tier or breakdown. */
  lemma NonCriticalScoresIgnored(sport: string, s1: map<string, real>, s2: map<string, real>)
    requires sport in SportSpecificBenchmarks
    requires AgreeOn(SportSpecificBenchmarks[sport].criticalTests, s1, s2)
    ensures SportAssessment(sport, s1) == SportAssessment(sport, s2)
  {
    var p := SportSpecificBenchmarks[sport];
    SumsDependOnlyOnListedTests(p, p.criticalTests, s1, s2);
    var score := SportScore(p, s1);
    assert SportScore(p, s2) == score;
    assert CriticalTestsPerformance(p, s1) == CriticalTestsPerformance(p, s2);
  }

  /** Every listed test has a positive weight. */
  predicate PositiveWeights(p: SportProfile, tests: seq<string>) {
    forall t | t in tests :: WeightOf(p, t) > 0.0
  }

  lemma MulMonotone(a: real, b: real, w: real)
    requires a <= b && w > 0.0
    ensures a * w <= b * w
  {
  }

  /** With positive weights the total weight is never negative, and it is
      positive exactly when some listed test has a score. */
  lemma {:induction false} TotalWeightPositive(p: SportProfile, tests: seq<string>, scores: map<string, real>)
    requires PositiveWeights(p, tests)
    ensures TotalWeight(p, tests, scores) >= 0.0
    ensures TotalWeight(p, tests, scores) > 0.0 <==> exists t | t in tests :: t in scores
    decreases |tests|
  {
    if tests != [] {
      var init := tests[..|tests| - 1];
      var last := tests[|tests| - 1];
      assert forall t | t in init :: t in tests;
      assert forall t | t in tests :: t in init || t == last;
      TotalWeightPositive(p, init, scores);
    }
  }

  /** With positive weights, when every scored listed test lies between `lo`
      and `hi`, the weighted sum lies between `lo` and `hi` times the total
      weight. */
  lemma {:induction false} WeightedSumBounds(p: SportProfile, tests: seq<string>, scores: map<string, real>, lo: real, hi: real)
    requires PositiveWeights(p, tests)
    requires forall t | t in tests && t in scores :: lo <= scores[t] <= hi
    ensures Between(lo, hi, TotalWeight(p, tests, scores), WeightedSum(p, tests, scores))
    decreases |tests|
  {
    if tests != [] {
      var init := tests[..|tests| - 1];
      var last := tests[|tests| - 1];
      assert forall t | t in init :: t in tests;
      WeightedSumBounds(p, init, scores, lo, hi);
      var w, x := SumsStep(p, tests, scores);
      BoundsStep(TotalWeight(p, init, scores), WeightedSum(p, init, scores), w, x, lo, hi,
        TotalWeight(p, tests, scores), WeightedSum(p, tests, scores));
    }
  }

  /** One step of the two sums: the last test adds weight `w` and term
      `x * w`, both 0 when it has no score. */
  lemma SumsStep(p: SportProfile, tests: seq<string>, scores: map<string, real>) returns (w: real, x: real)
    requires tests != []
    ensures var last := tests[|tests| - 1];
      if last in scores then w == WeightOf(p, last) && x == scores[last] else w == 0.0 && x == 0.0
    ensures TotalWeight(p, tests, scores) == TotalWeight(p, tests[..|tests| - 1], scores) + w
    ensures WeightedSum(p, tests, scores) == WeightedSum(p, tests[..|tests| - 1], scores) + x * w
  {
    var last := tests[|tests| - 1];
    if last in scores {
      w, x := WeightOf(p, last), scores[last];
    } else {
      w, x := 0.0, 0.0;
    }
  }

  /** `sum` lies between `lo` and `hi` times `total`. */
  predicate Between(lo: real, hi: real, total: real, sum: real) {
    lo * total <= sum <= hi * total
  }

  /** Adding one more term `x * w` (with `lo <= x <= hi` and `w > 0`, or no
      term at all) keeps a weighted sum between `lo` and `hi` times its total
      weight. */
  lemma BoundsStep(total: real, sum: real, w: real, x: real, lo: real, hi: real, total': real, sum': real)
    requires Between(lo, hi, total, sum)
    requires (w > 0.0 && lo <= x <= hi) || (w == 0.0 && x == 0.0)
    requires total' == total + w && sum' == sum + x * w
    ensures Between(lo, hi, total', sum')
  {
    if w > 0.0 {
      MulMonotone(lo, x, w);
      MulMonotone(x, hi, w);
    }
    assert lo * total' == lo * total + lo * w;
    assert hi * total' == hi * total + hi * w;
  }

  /** A quotient lies between bounds whose multiples bound the dividend. */
  lemma QuotientBounds(sum: real, total: real, lo: real, hi: real)
    requires total > 0.0
    requires lo * total <= sum <= hi * total
    ensures lo <= sum / total <= hi
  {
    var q := sum / total;
    assert q * total == sum;
    if q < lo {
      MulMonotone(q, lo, total);
    }
    if q > hi {
      MulMonotone(hi, q, total);
    }
  }

  /** With positive weights the sport score is the weighted average of the
      scored critical tests: it lies between the lowest and the highest of
      them, and it is 0 with zero total weight exactly when none of them is
      scored. */
  lemma SportScoreWithinBounds(p: SportProfile, scores: map<string, real>, lo: real, hi: real)
    requires PositiveWeights(p, p.criticalTests)
    requires forall t | t in p.criticalTests && t in scores :: lo <= scores[t] <= hi
    ensures (exists t | t in p.criticalTests :: t in scores) ==> lo <= SportScore(p, scores) <= hi
    ensures (forall t | t in p.criticalTests :: t !in scores) <==> TotalWeight(p, p.criticalTests, scores) == 0.0
    ensures (forall t | t in p.criticalTests :: t !in scores) ==> SportScore(p, scores) == 0.0
  {
    TotalWeightPositive(p, p.criticalTests, scores);
    WeightedSumBounds(p, p.criticalTests, scores, lo, hi);
    var total := TotalWeight(p, p.criticalTests, scores);
    if total > 0.0 {
      QuotientBounds(WeightedSum(p, p.criticalTests, scores), total, lo, hi);
    }
  }

  /** Every known sport's critical tests carry positive weights, so the bounds
      above apply to every known sport. */
  lemma KnownSportsHavePositiveWeights(sport: string)
    requires sport in SportSpecificBenchmarks
    ensures PositiveWeights(SportSpecificBenchmarks[sport], SportSpecificBenchmarks[sport].criticalTests)
  {
    SportProfilesWellFormed();
  }

  /** The tiers as bands: with elite > talent > 60 each tier is reached
      exactly on its own score interval. */
  lemma TalentLevelBands(p: SportProfile, score: real)
    requires p.eliteThreshold > p.talentThreshold > ModerateThreshold
    ensures TalentLevelFor(p, score) == ElitePotential <==> score >= p.eliteThreshold
    ensures TalentLevelFor(p, score) == HighPotential <==> p.talentThreshold <= score < p.eliteThreshold
    ensures TalentLevelFor(p, score) == ModeratePotential <==> 60.0 <= score < p.talentThreshold
    ensures TalentLevelFor(p, score) == Developing <==> score < 60.0
  {
  }

  /** A higher sport score never gives a lower tier. */
  lemma TalentLevelMonotone(p: SportProfile, s1: real, s2: real)
    requires p.eliteThreshold > p.talentThreshold > ModerateThreshold
    requires s1 <= s2
    ensures TierRank(TalentLevelFor(p, s1)) <= TierRank(TalentLevelFor(p, s2))
  {
  }

  /** For every known sport, no scores at all give score 0 and "Developing". */
  lemma EmptyScoresAreDeveloping(sport: string)
    requires sport in SportSpecificBenchmarks
    ensures SportAssessment(sport, map[]).sportScore == 0.0
    ensures SportAssessment(sport, map[]).talentLevel == Developing
  {
    var p := SportSpecificBenchmarks[sport];
    KnownSportsHavePositiveWeights(sport);
    SportScoreWithinBounds(p, map[], 0.0, 0.0);
    SportProfilesWellFormed();
  }

  /** Athletics weighs Vertical Jump 0.4 and 50m Sprint 0.6: scores 90 and 80
      give 84, which is "High Potential" (talent 75, elite 85). */
  lemma AthleticsExample()
    ensures SportAssessment("Athletics", map[VerticalJump := 90.0, Sprint := 80.0]).sportScore == 84.0
    ensures SportAssessment("Athletics", map[VerticalJump := 90.0, Sprint := 80.0]).talentLevel == HighPotential
  {
    var p := SportSpecificBenchmarks["Athletics"];
    var scores := map[VerticalJump := 90.0, Sprint := 80.0];
    assert p.criticalTests == [VerticalJump, Sprint];
    assert WeightOf(p, VerticalJump) == 0.4 && WeightOf(p, Sprint) == 0.6;
    assert [VerticalJump, Sprint][..1] == [VerticalJump] && [VerticalJump][..0] == [];
    assert WeightedSum(p, [VerticalJump], scores) == 36.0;
    assert TotalWeight(p, [VerticalJump], scores) == 0.4;
    assert WeightedSum(p, p.criticalTests, scores) == 84.0;
    assert TotalWeight(p, p.criticalTests, scores) == 1.0;
  }

  // ---------------------------------------------------------------------
  // National comparison

  datatype Comparison = Comparison(percentile: nat, description: string, performanceLevel: string)

  predicate InBracket(b: Bracket, score: real) {
    b.lo <= score <= b.hi
  }

  /** The first percentile of `order` whose bracket holds the score. */
  function ScanBrackets(order: seq<nat>, score: real): (r: Option<nat>)
    requires forall p | p in order :: p in NationalPercentiles
    ensures r.Some? ==> r.value in order && InBracket(NationalPercentiles[r.value], score)
    ensures r.None? <==> forall p | p in order :: !InBracket(NationalPercentiles[p], score)
    decreases |order|
  {
    if order == [] then None
    else if InBracket(NationalPercentiles[order[0]], score) then Some(order[0])
    else
      assert forall p | p in order[1..] :: p in order;
      assert forall p | p in order :: p == order[0] || p in order[1..];
      ScanBrackets(order[1..], score)
  }

  function NationalLevel(percentile: nat): string {
    DecimalText(percentile) + "th percentile nationally"
  }

  /** The national comparison of a score: the first bracket in descending
      percentile order that holds it; failing that, 99 above 95 and 25
      otherwise. */
  function NationalComparison(score: real): (c: Comparison)
    ensures c.percentile == 25 || c.percentile in NationalPercentiles
    ensures c.percentile in NationalPercentiles ==> c.description == NationalPercentiles[c.percentile].description
  {
    NationalPercentilesShape();
    match ScanBrackets(NationalScanOrder, score)
    case Some(p) => Comparison(p, NationalPercentiles[p].description, NationalLevel(p))
    case None =>
      if score > 95.0 then Comparison(99, "World-class performance", "99th percentile nationally")
      else Comparison(25, "Below average performance", "Below 25th percentile nationally")
  }

  /** Tries the brackets in descending percentile order and stops at the
      first that holds the score, inclusive at both ends. */
  method ScanNational(score: real) returns (found: Option<nat>)
    ensures (forall p | p in NationalScanOrder :: p in NationalPercentiles) && found == ScanBrackets(NationalScanOrder, score)
  {
    NationalPercentilesShape();
    var i := 0;
    while i < |NationalScanOrder|
      invariant 0 <= i <= |NationalScanOrder|
      invariant ScanBrackets(NationalScanOrder[i..], score) == ScanBrackets(NationalScanOrder, score)
    {
      var percentile := NationalScanOrder[i];
      var bracket := NationalPercentiles[percentile];
      ghost var rest := NationalScanOrder[i..];
      assert rest[0] == percentile && rest[1..] == NationalScanOrder[i + 1..];
      if bracket.lo <= score <= bracket.hi {
        assert ScanBrackets(rest, score) == Some(percentile);
        return Some(percentile);
      }
      assert ScanBrackets(rest, score) == ScanBrackets(NationalScanOrder[i + 1..], score);
      i := i + 1;
    }
    assert NationalScanOrder[i..] == [];
    return None;
  }

  /** The scan, then the two fallbacks: 99 above 95, 25 otherwise. */
  method CompareToNationalStandards(score: real) returns (c: Comparison)
    ensures c == NationalComparison(score)
  {
    var found := ScanNational(score);
    match found
    case Some(percentile) =>
      c := Comparison(percentile, NationalPercentiles[percentile].description, NationalLevel(percentile));
    case None =>
      if score > 95.0 {
        c := Comparison(99, "World-class performance", "99th percentile nationally");
      } else {
        c := Comparison(25, "Below average performance", "Below 25th percentile nationally");
      }
  }

  /** The percentile as a plain band table, with each shared endpoint going
      to the higher bracket. */
  function PercentileBand(score: real): nat {
    if score >= 95.0 then 99
    else if score >= 85.0 then 95
    else if score >= 75.0 then 90
    else if score >= 60.0 then 75
    else if score >= 40.0 then 50
    else 25
  }

  /** The scan finds a bracket exactly on [40, 100], and there it finds the
      band table's percentile. */
  lemma ScanBracketsBands(score: real)
    ensures forall p | p in NationalScanOrder :: p in NationalPercentiles
    ensures ScanBrackets(NationalScanOrder, score) ==
      if 40.0 <= score <= 100.0 then Some(PercentileBand(score)) else None
  {
    var np := NationalPercentiles;
    assert np[99] == Bracket(95.0, 100.0, "World-class performance");
    assert np[95] == Bracket(85.0, 95.0, "Elite national performance");
    assert np[90] == Bracket(75.0, 85.0, "Excellent national performance");
    assert np[75] == Bracket(60.0, 75.0, "Above average national performance");
    assert np[50] == Bracket(40.0, 60.0, "Average national performance");
    var o := NationalScanOrder;
    assert o[1..] == [95, 90, 75, 50];
    assert o[1..][1..] == [90, 75, 50];
    assert o[1..][1..][1..] == [75, 50];
    assert o[1..][1..][1..][1..] == [50];
    assert [50][1..] == [];
    var s4 := ScanBrackets([50], score);
    assert s4 == if 40.0 <= score <= 60.0 then Some(50) else None;
    var s3 := ScanBrackets([75, 50], score);
    assert s3 == if 60.0 <= score <= 75.0 then Some(75) else s4;
    var s2 := ScanBrackets([90, 75, 50], score);
    assert s2 == if 75.0 <= score <= 85.0 then Some(90) else s3;
    var s1 := ScanBrackets([95, 90, 75, 50], score);
    assert s1 == if 85.0 <= score <= 95.0 then Some(95) else s2;
    assert ScanBrackets(o, score) == if 95.0 <= score <= 100.0 then Some(99) else s1;
  }

  /** The scan agrees with the band table on every score; every score in
      [40, 100] is matched by a bracket, whose description and "{p}th
      percentile nationally" are returned; above 100 the result is 99 /
      "World-class performance", below 40 it is 25 / "Below average
      performance". */
  lemma NationalComparisonBands(score: real)
    ensures NationalComparison(score).percentile == PercentileBand(score)
    ensures 40.0 <= score <= 100.0 ==>
      var c := NationalComparison(score);
      c.percentile in NationalPercentiles
      && c.description == NationalPercentiles[c.percentile].description
      && c.performanceLevel == NationalLevel(c.percentile)
    ensures score > 100.0 ==>
      NationalComparison(score) == Comparison(99, "World-class performance", "99th percentile nationally")
    ensures score < 40.0 ==>
      NationalComparison(score) == Comparison(25, "Below average performance", "Below 25th percentile nationally")
  {
    ScanBracketsBands(score);
  }

  /** Shared endpoints go to the higher percentile. */
  lemma SharedEndpointsGoHigher()
    ensures NationalComparison(95.0).percentile == 99
    ensures NationalComparison(85.0).percentile == 95
    ensures NationalComparison(75.0).percentile == 90
    ensures NationalComparison(60.0).percentile == 75
  {
    NationalComparisonBands(95.0);
    NationalComparisonBands(85.0);
    NationalComparisonBands(75.0);
    NationalComparisonBands(60.0);
  }

  /** The percentile is one of 25, 50, 75, 90, 95, 99 and never decreases as
      the score grows. */
  lemma NationalPercentileMonotone(s1: real, s2: real)
    requires s1 <= s2
    ensures NationalComparison(s1).percentile in {25, 50, 75, 90, 95, 99}
    ensures NationalComparison(s1).percentile <= NationalComparison(s2).percentile
  {
    NationalComparisonBands(s1);
    NationalComparisonBands(s2);
  }

  /** An 88 is Elite, at the 95th percentile; 97 is World-class; 10 is
      below the 25th percentile. */
  lemma NationalComparisonExamples()
    ensures NationalComparison(88.0).percentile == 95
    ensures NationalComparison(88.0).description == "Elite national performance"
    ensures NationalComparison(97.0).percentile == 99
    ensures NationalComparison(97.0).description == "World-class performance"
    ensures NationalComparison(10.0) == Comparison(25, "Below average performance", "Below 25th percentile nationally")
  {
    NationalComparisonBands(88.0);
    NationalComparisonBands(97.0);
    NationalComparisonBands(10.0);
  }
}
