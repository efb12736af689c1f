# TalentTrakker benchmarks and sample-video helpers in Dafny

This project models two parts of the TalentTrakker fitness-assessment
platform and proves properties of them.

- **Performance benchmarks** (`TalentTrakker/data/benchmarks.py`):
  - the age groups and the per-test, per-age-group, per-gender threshold
    tables;
  - the six sport profiles and the national percentile brackets;
  - `get_benchmark`, which resolves an age group by a first-match scan over
    the declared ranges and then looks up a threshold table, falling back
    to the default 90/75/60/40;
  - `get_sport_specific_assessment`, a weighted average over a sport's
    critical tests followed by the talent-tier chain;
  - `compare_to_national_standards`, a descending scan over the percentile
    brackets with its two fallbacks.
- **Sample-video helpers** (`assets/sample_videos.py`):
  - the reference-video catalogue and `get_sample_videos`;
  - the duration and minimum-resolution fields of `get_video_requirements`;
  - `validate_video_requirements`;
  - `get_recording_tips`.

Modules:

- `Wrappers`: `Option` and `Result`.
- `Decimal`: decimal digit text, and a parser that plays the part of
  Python's `int()` on plain digit strings.
- `FitnessTests`: the five test-type names.
- `BenchmarkTables`: the static tables and the shape lemmas about them.
- `Benchmarks`: the three benchmark operations.
- `SampleVideos`: the video helpers.

Loops in the source are `method`s with `while` loops. Each method is proved
equal to a specification function, and the lemmas are stated about those
functions. The source's dictionaries of constants become `const` maps,
sequences or table functions. The video manager's fields are never updated
after construction, so they are module constants rather than a class.

Two behaviours of the national comparison are worth spelling out:

- A score of 88 lies only in the closed bracket [85, 95], so it gets
  percentile 95, "Elite national performance"
  (`Benchmarks.NationalComparisonExamples`).
- The "score > 95 gives 99" branch runs only when no bracket matched. Every
  score in (95, 100] is already matched by the 99 bracket, so in practice
  the branch covers scores above 100 (`Benchmarks.NationalComparisonBands`).

## Model

| member | source | states |
|---|---|---|
| BenchmarkTables.AgeGroupsShape | TalentTrakker/data/benchmarks.py:7-13 | the five declared age ranges are pairwise disjoint, and an age lies in one of them exactly when it is between 12 and 40 |
| BenchmarkTables.GenderNamed | TalentTrakker/data/benchmarks.py:24-339 | a gender key names a stored gender only if it is exactly that gender's name ("Male" or "Female") |
| BenchmarkTables.GenderNamedName | TalentTrakker/data/benchmarks.py:24-339 | reading a stored gender's name gives that gender back |
| BenchmarkTables.StoredThresholdsOrdered | TalentTrakker/data/benchmarks.py:24-339 | every stored threshold record, and the default one, has excellent >= good >= average >= poor |
| BenchmarkTables.SportProfilesWellFormed | TalentTrakker/data/benchmarks.py:342-379 | every sport has elite > talent > 60, at least one critical test, and every critical test is a known test with a positive weight |
| BenchmarkTables.NationalPercentilesShape | TalentTrakker/data/benchmarks.py:382-389 | the scan order is exactly the national keys in strictly descending order; neighbouring brackets share an endpoint; together they cover [40, 100] |
| Benchmarks.AgeGroupOf | TalentTrakker/data/benchmarks.py:411-417 | the age group is the group of a declared range holding the age, or the default Adult; every age outside 12..40 gets Adult |
| Benchmarks.FirstMatch | TalentTrakker/data/benchmarks.py:412-417 | the scan finds nothing exactly when no range holds the age; otherwise it returns the group of a range that holds it |
| Benchmarks.FirstMatchIsUniqueMatch | TalentTrakker/data/benchmarks.py:412-417 | over pairwise disjoint ranges, the first match is the range holding the age |
| Benchmarks.AgeGroupOfDeclaredRange | TalentTrakker/data/benchmarks.py:411-417 | an age inside a declared range gets that range's group |
| Benchmarks.AgeGroupOfBands | TalentTrakker/data/benchmarks.py:411-417 | the age group is 12-15 Youth, 16-19 Junior, 20-25 Adult, 26-30 Senior, 31-40 Masters, and Adult for every other age |
| Benchmarks.BenchmarkFor | TalentTrakker/data/benchmarks.py:419-429 | a stored table is returned only for a known test type and the gender "Male" or "Female"; any other result is the default 90/75/60/40 |
| Benchmarks.GetBenchmark | TalentTrakker/data/benchmarks.py:399-429 | the first-match loop with break, followed by the table lookup, returns the benchmark of the resolved age group |
| Benchmarks.BenchmarkForStoredIff | TalentTrakker/data/benchmarks.py:419-429 | the stored table is returned exactly when the test type is known and the gender is "Male" or "Female"; otherwise the default 90/75/60/40 is returned; every result's thresholds are ordered |
| Benchmarks.BenchmarkForExamples | TalentTrakker/data/benchmarks.py:49-54 | a male Vertical Jump athlete of 20 gets the Adult jump_height thresholds 60/50/40/25; an unknown test or the gender "Other" gets the default |
| Benchmarks.SportAssessment | TalentTrakker/data/benchmarks.py:442-485 | the level is Unknown exactly for an unknown sport; a breakdown is present exactly for a known sport; the recommendation always matches the level |
| Benchmarks.TalentLevelFor | TalentTrakker/data/benchmarks.py:467-478 | a known sport's tier is never Unknown, and it is Elite Potential exactly when the score reaches the elite threshold |
| Benchmarks.AccumulateScores | TalentTrakker/data/benchmarks.py:450-462 | the loop over the critical tests yields the weighted sum and the total weight of the scored tests, where a missing weight factor counts as 1.0 |
| Benchmarks.GetSportSpecificAssessment | TalentTrakker/data/benchmarks.py:431-485 | the assessment equals the specification: a sentinel for an unknown sport; otherwise the weighted average (0 with no weight), the tier, the recommendation and the breakdown |
| Benchmarks.SportAssessmentShape | TalentTrakker/data/benchmarks.py:442-447 | an unknown sport gets score 0, level Unknown, the fixed recommendation and no breakdown; a known sport's breakdown has exactly its critical tests as keys, with 0 for a test without a score |
| Benchmarks.SumsDependOnlyOnListedTests | TalentTrakker/data/benchmarks.py:457-462 | the two sums depend only on the scores of the listed tests |
| Benchmarks.NonCriticalScoresIgnored | TalentTrakker/data/benchmarks.py:431-485 | scores of tests that are not critical for the sport do not change its assessment |
| Benchmarks.TotalWeightPositive | TalentTrakker/data/benchmarks.py:457-464 | with positive weights the total weight is non-negative, and it is positive exactly when some critical test has a score |
| Benchmarks.WeightedSumBounds | TalentTrakker/data/benchmarks.py:457-462 | when every scored test lies in [lo, hi], the weighted sum lies between lo and hi times the total weight |
| Benchmarks.SportScoreWithinBounds | TalentTrakker/data/benchmarks.py:464 | the sport score is a weighted average, so it lies within the range of the scored critical tests; the total weight is 0 exactly when no critical test has a score, and then the sport score is 0 |
| Benchmarks.KnownSportsHavePositiveWeights | TalentTrakker/data/benchmarks.py:342-379 | every known sport's critical tests have positive weights |
| Benchmarks.TalentLevelBands | TalentTrakker/data/benchmarks.py:467-478 | Elite Potential exactly when score >= elite; High Potential on [talent, elite); Moderate Potential on [60, talent); Developing below 60 |
| Benchmarks.TalentLevelMonotone | TalentTrakker/data/benchmarks.py:467-478 | a higher sport score never gives a lower tier |
| Benchmarks.EmptyScoresAreDeveloping | TalentTrakker/data/benchmarks.py:464-478 | with no scores at all, every known sport gives score 0 and "Developing" |
| Benchmarks.AthleticsExample | TalentTrakker/data/benchmarks.py:343-348 | Athletics with Vertical Jump 90 and 50m Sprint 80 scores 84, which is High Potential |
| Benchmarks.ScanBrackets | TalentTrakker/data/benchmarks.py:499-506 | the scan returns a percentile from the order whose bracket holds the score, and finds nothing exactly when no bracket in the order holds it |
| Benchmarks.NationalComparison | TalentTrakker/data/benchmarks.py:497-520 | the percentile is 25 or one of the national percentiles, and a national percentile always comes with its own bracket's description |
| Benchmarks.ScanNational | TalentTrakker/data/benchmarks.py:499-506 | the loop that stops at the first inclusive match finds the first bracket, in descending percentile order, that holds the score, or none |
| Benchmarks.CompareToNationalStandards | TalentTrakker/data/benchmarks.py:487-520 | the scan followed by the two fallbacks gives the national comparison of the score |
| Benchmarks.ScanBracketsBands | TalentTrakker/data/benchmarks.py:497-506 | the descending scan finds a bracket exactly when 40 <= score <= 100, and that bracket's percentile is the band of the score |
| Benchmarks.NationalComparisonBands | TalentTrakker/data/benchmarks.py:487-520 | the percentile equals the band table; on [40, 100] the bracket's own description and "{p}th percentile nationally" are returned; above 100 the result is 99 "World-class performance"; below 40 it is 25 "Below average performance" |
| Benchmarks.SharedEndpointsGoHigher | TalentTrakker/data/benchmarks.py:497-506 | the shared endpoints 95, 85, 75 and 60 go to the higher percentile |
| Benchmarks.NationalPercentileMonotone | TalentTrakker/data/benchmarks.py:487-520 | the percentile is one of 25, 50, 75, 90, 95, 99, and it never decreases as the score grows |
| Benchmarks.NationalComparisonExamples | TalentTrakker/data/benchmarks.py:487-520 | 88 gives 95 "Elite national performance"; 97 gives 99 "World-class performance"; 10 gives 25 "Below average performance" |
| Decimal.ParseDigits | assets/sample_videos.py:480-481 | a text that reads as a number is non-empty and begins and ends with a digit |
| Decimal.ParseDigitsMeaning | assets/sample_videos.py:480-481 | a text reads as a number exactly when it is a non-empty run of ASCII digits, and the number read is the value of those digits |
| Decimal.ParseDecimalText | assets/sample_videos.py:480-481 | reading back the decimal text of a number gives the number again |
| SampleVideos.KeysOf | assets/sample_videos.py:14-188 | the keys are the entries' test types, in order |
| SampleVideos.VideosFor | assets/sample_videos.py:234-235 | a lookup finds nothing exactly when no entry has the key; otherwise it finds the recordings of an entry with that key |
| SampleVideos.GetSampleVideos | assets/sample_videos.py:224-243 | no filter gives every recording in catalogue order; a non-empty known type gives that type's list; an empty or unknown type gives [] |
| SampleVideos.AllVideosMembership | assets/sample_videos.py:236-241 | a recording is in the full list exactly when some entry holds it |
| SampleVideos.AllVideosLength | assets/sample_videos.py:236-241 | the full list is as long as the entries' lists together |
| SampleVideos.VideosForUniqueKey | assets/sample_videos.py:234-235 | with distinct keys, looking up an entry's test type finds that entry's recordings |
| SampleVideos.CatalogueShape | assets/sample_videos.py:14-188 | the catalogue is keyed by the five distinct test types in their usual order, and holds seven recordings |
| SampleVideos.RecordingsPerTestType | assets/sample_videos.py:14-188 | a lookup of each test type finds its own entry: two recordings for Vertical Jump and Sit-ups, one for each of the others |
| SampleVideos.EmptyFilterFindsNothing | assets/sample_videos.py:234 | no entry has the empty string as its key |
| SampleVideos.GetVideoRequirements | assets/sample_videos.py:249-352 | the minimum resolution is 720x480 for the sprint and 640x480 for every other type; the duration is "Variable" exactly for an unknown type |
| SampleVideos.RequirementsKeys | assets/sample_videos.py:259-340 | the requirements table has an entry for exactly the five test types |
| SampleVideos.GetRecordingTips | assets/sample_videos.py:505-558 | a known test type gets its own six tips; any other type gets the five general tips |
| SampleVideos.IndexOfX | assets/sample_videos.py:480 | the index found is within the text, and when it is inside the text it holds an 'x' |
| SampleVideos.IndexOfXIsFirst | assets/sample_videos.py:480 | no 'x' comes before the one found |
| SampleVideos.ParseResolution | assets/sample_videos.py:479-481 | only a non-empty text with an 'x' reads as a resolution |
| SampleVideos.ParseResolutionIff | assets/sample_videos.py:480-481 | a text reads as "WxH" exactly when it splits at an 'x' into two non-empty runs of digits, and then the width and height are their values |
| SampleVideos.SplitParses | assets/sample_videos.py:480-481 | a split at an 'x' into two runs of digits is the one the reader takes: the width and height are the values of the two runs |
| SampleVideos.ParseFormatRoundTrip | assets/sample_videos.py:480-481 | reading back a formatted resolution gives it again |
| SampleVideos.MinimumTexts | assets/sample_videos.py:262-344 | "640x480" and "720x480" are the texts of those two resolutions |
| SampleVideos.MinResolutionsParse | assets/sample_videos.py:476-481 | every test type's minimum resolution reads as 720x480 for the sprint and as 640x480 otherwise |
| SampleVideos.ResolutionPhaseMeaning | assets/sample_videos.py:476-493 | against a minimum that reads as "WxH": no check exactly when the text is empty or has no 'x'; an error exactly when a checked text has no split at an 'x' into two runs of digits; for such a split, the check passes exactly when the number before the 'x' reaches the minimum width and the number after it the minimum height |
| SampleVideos.ResolutionPhaseAgainstMinimum | assets/sample_videos.py:476-493 | against the test type's own minimum: no check exactly for an empty text or one without 'x'; a check made has a readable text, passes exactly when it reaches 720x480 for the sprint and 640x480 otherwise, and on failure names the minimum |
| SampleVideos.CheckResolution | assets/sample_videos.py:476-493 | the comparison with early returns has the outcome of the resolution phase, so the facts of ResolutionPhaseMeaning hold of it |
| SampleVideos.Validation | assets/sample_videos.py:445-503 | a failure happens only for a resolution text that is checked; a success always has the duration check, and has no recommendations exactly when the overall result passes |
| SampleVideos.ValidationParts | assets/sample_videos.py:453-493 | the checks of a successful validation are the duration check plus the resolution check when one is made, and its warnings are the duration warning plus a low-resolution warning for a failed resolution check |
| SampleVideos.ValidateVideoRequirements | assets/sample_videos.py:434-503 | the results built in place equal the specification: the duration check, then the resolution check and its warning, then the recommendations |
| SampleVideos.ValidationFailsOnlyOnBadResolution | assets/sample_videos.py:479-481 | validation fails exactly when the resolution text is non-empty, has an 'x', and does not read as two numbers |
| SampleVideos.ValidationOverallPass | assets/sample_videos.py:457-501 | the overall result fails exactly for a sit-up recording shorter than 55 seconds (a missing duration counts as 0); the three review recommendations are given exactly then, and none otherwise |
| SampleVideos.ValidationDurationCheck | assets/sample_videos.py:453-473 | the duration check is always present and passes unless the recording is a short sit-up or a vertical jump outside 3 to 15 seconds; an out-of-range jump adds the first warning and leaves the overall result passed |
| SampleVideos.ValidationResolutionCheck | assets/sample_videos.py:475-493 | only the duration and resolution checks exist; the resolution check is present exactly when the text is non-empty and has an 'x'; it passes exactly when both dimensions reach the minimum; a failed check ends the warnings with the low-resolution warning |
| SampleVideos.ValidationWarningsCount | assets/sample_videos.py:453-493 | there is one warning for an out-of-range jump plus one for a failed resolution check, and no others |
| SampleVideos.MissingResolutionFailsCheck | assets/sample_videos.py:477-493 | a video without a resolution is checked as "0x0", so it always gets a failed resolution check |

## Left out

- Floating point: scores, weights and durations are exact `real`s, so float rounding, NaN and infinities are not modelled.
- `GENDER_FACTORS` and the "state" percentile table are data that none of the modelled operations read.
- The numeric values of the per-test threshold tables are modelled, but only their ordering and the Vertical Jump Adult example are stated about them.
- `get_test_scenarios` and `get_common_issues` return constant prose and make no decisions.
- Prose fields are not modelled: video descriptions, key features, athlete info, expected metrics, and the requirement fields other than duration and minimum resolution.
- The module-level instance, the wrapper functions around it, and the demonstration block at the end of `sample_videos.py` are not modelled.
- Sample-video durations are stored in the catalogue as text such as "5 seconds"; the model stores them as numbers of seconds.
- SampleVideos.ParseResolution: reads only plain ASCII digit runs. Python's `int()` also accepts a sign, surrounding whitespace, underscores between digits and non-ASCII digits. The model treats such texts as unreadable (an error), where Python would read a number.
- SampleVideos.ValidateVideoRequirements: a metadata entry present with the value `None` is not modelled. A missing entry takes the source's defaults (0 seconds, "0x0"). Non-numeric durations are not modelled. Python raises a comparison error for them only on sit-up and vertical-jump recordings (`assets/sample_videos.py:457`, `:463`); for other test types the duration is never compared and the check passes.
- Talent levels, check messages, warnings and recommendations are enumerations. `TalentLevelName`, `MessageText`, `WarningText` and `AdviceText` give their exact wording.
- Aliasing is not modelled: `get_sample_videos` returns the catalogue's own list for a known test type, and `get_benchmark` returns the stored threshold dictionary. The model returns values, and nothing modelled mutates them.
