/** The sample-video catalogue and the video requirement checks: the
    catalogue of reference recordings per fitness test, the recording
    requirements and tips per test, and the validator that checks an
    uploaded video's duration and resolution against them. */
module SampleVideos {
  import opened Wrappers
  import opened Decimal
  import opened FitnessTests

  // ---------------------------------------------------------------------
  // Sample video catalogue

  /** A reference recording; its duration is in seconds. */
  datatype Video = Video(id: string, title: string, durationSeconds: real, resolution: string)

  /** The recordings of one test type. */
  datatype CatalogueEntry = CatalogueEntry(testType: string, videos: seq<Video>)

  /** The catalogue, in declaration order. */
  const Catalogue: seq<CatalogueEntry> := [
    CatalogueEntry(VerticalJump, [
      Video("vj_001", "Vertical Jump - Proper Form Example", 5.0, "1080x720"),
      Video("vj_002", "Vertical Jump - Beginner Level", 4.0, "720x480")]),
    CatalogueEntry(SitUps, [
      Video("su_001", "Sit-ups - High Performance", 60.0, "1080x720"),
      Video("su_002", "Sit-ups - Standard Form", 60.0, "720x480")]),
    CatalogueEntry(Sprint, [
      Video("sp_001", "50m Sprint - Elite Performance", 8.0, "1080x720")]),
    CatalogueEntry(PushUps, [
      Video("pu_001", "Push-ups - Perfect Form", 45.0, "1080x720")]),
    CatalogueEntry(Flexibility, [
      Video("ft_001", "Flexibility Test - Sit and Reach", 15.0, "720x480")])
  ]

  /** The test types of `entries`, in order. */
  function KeysOf(entries: seq<CatalogueEntry>): (keys: seq<string>)
    ensures |keys| == |entries|
    ensures forall i | 0 <= i < |entries| :: keys[i] == entries[i].testType
  {
    if entries == [] then [] else [entries[0].testType] + KeysOf(entries[1..])
  }

  /** The recordings filed under `key`: those of the first entry with that
      test type. */
  function VideosFor(entries: seq<CatalogueEntry>, key: string): (r: Option<seq<Video>>)
    ensures r.None? <==> forall i | 0 <= i < |entries| :: entries[i].testType != key
    ensures r.Some? ==> exists i | 0 <= i < |entries| :: entries[i].testType == key && entries[i].videos == r.value
  {
    if entries == [] then None
    else if entries[0].testType == key then Some(entries[0].videos)
    else
      var r := VideosFor(entries[1..], key);
      assert r.Some? ==> exists i | 1 <= i < |entries| :: entries[i].testType == key && entries[i].videos == r.value by {
        if r.Some? {
          var k :| 0 <= k < |entries[1..]| && entries[1..][k].testType == key && entries[1..][k].videos == r.value;
          assert entries[k + 1] == entries[1..][k];
        }
      }
      r
  }

  /** Every recording of `entries`, entry after entry. */
  function AllVideos(entries: seq<CatalogueEntry>): seq<Video>
    decreases |entries|
  {
    if entries == [] then []
    else AllVideos(entries[..|entries| - 1]) + entries[|entries| - 1].videos
  }

  /** With an absent filter, every recording in catalogue order; with a
      non-empty test type of the catalogue, that type's recordings;
      otherwise (an unknown type, the empty string) none. */
  method GetSampleVideos(testType: Option<string>) returns (videos: seq<Video>)
    ensures testType.None? ==> videos == AllVideos(Catalogue)
    ensures testType.Some? && testType.value != "" && VideosFor(Catalogue, testType.value).Some? ==>
      videos == VideosFor(Catalogue, testType.value).value
    ensures testType.Some? && (testType.value == "" || VideosFor(Catalogue, testType.value).None?) ==>
      videos == []
  {
    if testType.Some? && testType.value != "" && VideosFor(Catalogue, testType.value).Some? {
      return VideosFor(Catalogue, testType.value).value;
    } else if testType.None? {
      videos := [];
      var i := 0;
      while i < |Catalogue|
        invariant 0 <= i <= |Catalogue|
        invariant videos == AllVideos(Catalogue[..i])
      {
        assert Catalogue[..i + 1][..i] == Catalogue[..i];
        videos := videos + Catalogue[i].videos;
        i := i + 1;
      }
      assert Catalogue[..i] == Catalogue;
    } else {
      videos := [];
    }
  }

  /** A recording is in the concatenation exactly when some entry holds it. */
  lemma {:induction false} AllVideosMembership(entries: seq<CatalogueEntry>, v: Video)
    ensures v in AllVideos(entries) <==> exists i | 0 <= i < |entries| :: v in entries[i].videos
    decreases |entries|
  {
    if entries != [] {
      var init := entries[..|entries| - 1];
      AllVideosMembership(init, v);
      if v in AllVideos(entries) && v !in entries[|entries| - 1].videos {
        var i :| 0 <= i < |init| && v in init[i].videos;
        assert entries[i] == init[i];
      }
      if exists i | 0 <= i < |init| :: v in entries[i].videos {
        var i :| 0 <= i < |init| && v in entries[i].videos;
        assert init[i] == entries[i];
      }
    }
  }

  /** The length of the concatenation is the sum of the entries' lengths. */
  function CountVideos(entries: seq<CatalogueEntry>): nat {
    if entries == [] then 0 else |entries[0].videos| + CountVideos(entries[1..])
  }

  lemma {:induction false} AllVideosLength(entries: seq<CatalogueEntry>)
    ensures |AllVideos(entries)| == CountVideos(entries)
    decreases |entries|
  {
    if entries != [] {
      var init := entries[..|entries| - 1];
      AllVideosLength(init);
      CountVideosSnoc(init, entries[|entries| - 1]);
      assert init + [entries[|entries| - 1]] == entries;
    }
  }

  lemma {:induction false} CountVideosSnoc(entries: seq<CatalogueEntry>, e: CatalogueEntry)
    ensures CountVideos(entries + [e]) == CountVideos(entries) + |e.videos|
    decreases |entries|
  {
    if entries != [] {
      assert (entries + [e])[1..] == entries[1..] + [e];
      CountVideosSnoc(entries[1..], e);
    }
  }

  /** No two entries share a test type. */
  predicate DistinctKeys(entries: seq<CatalogueEntry>) {
    forall i, j | 0 <= i < j < |entries| :: entries[i].testType != entries[j].testType
  }

  /** With distinct keys, the recordings found under an entry's test type
      are that entry's. */
  lemma {:induction false} VideosForUniqueKey(entries: seq<CatalogueEntry>, i: int)
    requires DistinctKeys(entries)
    requires 0 <= i < |entries|
    ensures VideosFor(entries, entries[i].testType) == Some(entries[i].videos)
  {
    if i > 0 {
      assert entries[0].testType != entries[i].testType;
      assert entries[1..][i - 1] == entries[i];
      VideosForUniqueKey(entries[1..], i - 1);
    }
  }

  /** The catalogue is keyed by the five distinct test types in their usual
      order, and holds seven recordings in all. */
  lemma CatalogueShape()
    ensures KeysOf(Catalogue) == TestTypes
    ensures DistinctKeys(Catalogue)
    ensures |AllVideos(Catalogue)| == 7
  {
    AllVideosLength(Catalogue);
    var c := Catalogue;
    assert CountVideos(c[4..]) == 1 by { assert c[4..][1..] == []; }
    assert CountVideos(c[3..]) == 2 by { assert c[3..][1..] == c[4..]; }
    assert CountVideos(c[2..]) == 3 by { assert c[2..][1..] == c[3..]; }
    assert CountVideos(c[1..]) == 5 by { assert c[1..][1..] == c[2..]; }
    assert c[..] == c;
    TestTypesDistinct();
  }

  /** Two recordings each for Vertical Jump and Sit-ups, one for each other
      test type. */
  lemma RecordingsPerTestType()
    ensures VideosFor(Catalogue, VerticalJump) == Some(Catalogue[0].videos) && |Catalogue[0].videos| == 2
    ensures VideosFor(Catalogue, SitUps) == Some(Catalogue[1].videos) && |Catalogue[1].videos| == 2
    ensures VideosFor(Catalogue, Sprint) == Some(Catalogue[2].videos) && |Catalogue[2].videos| == 1
    ensures VideosFor(Catalogue, PushUps) == Some(Catalogue[3].videos) && |Catalogue[3].videos| == 1
    ensures VideosFor(Catalogue, Flexibility) == Some(Catalogue[4].videos) && |Catalogue[4].videos| == 1
  {
    CatalogueShape();
    VideosForUniqueKey(Catalogue, 0);
    VideosForUniqueKey(Catalogue, 1);
    VideosForUniqueKey(Catalogue, 2);
    VideosForUniqueKey(Catalogue, 3);
    VideosForUniqueKey(Catalogue, 4);
  }

  /** The empty string gets no recordings, like any unknown test type. */
  lemma EmptyFilterFindsNothing()
    ensures VideosFor(Catalogue, "").None?
  {
    assert forall i | 0 <= i < |Catalogue| :: |Catalogue[i].testType| > 0;
  }

  // ---------------------------------------------------------------------
  // Recording requirements and tips

  /** The fields of a test's requirements that the validator reads. */
  datatype Requirements = Requirements(duration: string, minResolution: string)

  const RequirementsTable: map<string, Requirements> := map[
    VerticalJump := Requirements("3-10 seconds", "640x480"),
    SitUps := Requirements("60-65 seconds", "640x480"),
    Sprint := Requirements("5-15 seconds", "720x480"),
    PushUps := Requirements("30-90 seconds", "640x480"),
    Flexibility := Requirements("10-30 seconds", "640x480")]

  /** The requirements of a test type without its own entry. */
  const DefaultRequirements := Requirements("Variable", "640x480")

  /** The requirements of a test type: its own entry, or the default. */
  function GetVideoRequirements(testType: string): (r: Requirements)
    ensures r.minResolution == if testType == Sprint then "720x480" else "640x480"
    ensures r.duration == "Variable" <==> testType !in TestTypes
  {
    if testType in RequirementsTable then RequirementsTable[testType] else DefaultRequirements
  }

  /** The requirements table has an entry for exactly the five test types. */
  lemma RequirementsKeys()
    ensures forall t :: t in RequirementsTable <==> t in TestTypes
  {
  }

  const RecordingTips: map<string, seq<string>> := map[
    VerticalJump := [
      "Set camera at waist height, 2-3 meters away",
      "Ensure full body is visible from head to feet",
      "Record in profile (side) view for best analysis",
      "Use good lighting to clearly see movement",
      "Keep camera still - use a tripod if possible",
      "Start recording before the jump and continue after landing"],
    SitUps := [
      "Position camera to show full body profile",
      "Ensure the mat/floor surface is clearly visible",
      "Record the entire 60-second duration without breaks",
      "Use consistent lighting throughout",
      "Keep camera stable and at consistent height",
      "Wear contrasting clothing for better pose detection"],
    Sprint := [
      "Position camera perpendicular to running path",
      "Ensure start and finish points are visible",
      "Use high frame rate (60fps) if available",
      "Record from sufficient distance to capture full run",
      "Minimize camera movement - use tripod",
      "Good outdoor lighting provides best results"],
    PushUps := [
      "Record from the side to show full range of motion",
      "Position camera at floor level for best angle",
      "Ensure full body is visible throughout exercise",
      "Use stable camera position for entire duration",
      "Good lighting helps detect proper form",
      "Continue recording until exercise is complete"],
    Flexibility := [
      "Record from the side to show reaching motion",
      "Include measurement reference (ruler/scale) if possible",
      "Capture the approach, reach, and hold phases",
      "Ensure good lighting on the measurement area",
      "Hold final position for 2-3 seconds",
      "Keep camera stable and properly framed"]]

  /** The tips given for a test type without tips of its own. */
  const GeneralTips: seq<string> := [
    "Clean your camera lens before recording",
    "Test your setup with a short recording first",
    "Ensure adequate storage space on your device",
    "Record in a quiet environment when possible",
    "Have backup recording options ready"]

  /** A known test type gets its own six tips; any other gets the five
      general ones. */
  function GetRecordingTips(testType: string): (tips: seq<string>)
    ensures testType in TestTypes ==> |tips| == 6 && tips == RecordingTips[testType]
    ensures testType !in TestTypes ==> tips == GeneralTips && |tips| == 5
  {
    if testType in RecordingTips then RecordingTips[testType] else GeneralTips
  }

  // ---------------------------------------------------------------------
  // Resolutions

  /** A frame size in pixels. */
  datatype Resolution = Resolution(width: nat, height: nat)

  /** The "WxH" text of a resolution. */
  function FormatResolution(r: Resolution): string {
    DecimalText(r.width) + "x" + DecimalText(r.height)
  }

  /** The index of the first 'x' of `s`, or `|s|` when it has none. */
  function IndexOfX(s: string): (i: nat)
    ensures i <= |s|
    ensures i < |s| ==> s[i] == 'x'
  {
    if s == [] then 0
    else if s[0] == 'x' then 0
    else 1 + IndexOfX(s[1..])
  }

  /** No 'x' comes before the one IndexOfX finds. */
  lemma {:induction false} IndexOfXIsFirst(s: string)
    ensures 'x' !in s[..IndexOfX(s)]
  {
    if s != [] && s[0] != 'x' {
      IndexOfXIsFirst(s[1..]);
      assert s[..IndexOfX(s)] == [s[0]] + s[1..][..IndexOfX(s[1..])];
    }
  }

  /** An 'x' with none before it is the first one. */
  lemma {:induction false} IndexOfXAt(s: string, k: nat)
    requires k < |s| && s[k] == 'x' && 'x' !in s[..k]
    ensures IndexOfX(s) == k
  {
    if k > 0 {
      assert s[0] == s[..k][0];
      assert s[1..][..k - 1] == s[..k][1..];
      IndexOfXAt(s[1..], k - 1);
    }
  }

  /** Reads "WxH": the digits before the first 'x' and the digits after it,
      both non-empty. Anything else cannot be converted to a pair of
      numbers. */
  function ParseResolution(s: string): (r: Option<Resolution>)
    ensures r.Some? ==> ResolutionChecked(s)
  {
    var i := IndexOfX(s);
    if i == |s| then None
    else match (ParseDigits(s[..i]), ParseDigits(s[i + 1..]))
      case (Some(w), Some(h)) => Some(Resolution(w, h))
      case _ => None
  }

  /** `s` splits at index `i`, an 'x', into two non-empty runs of digits. */
  predicate SplitAt(s: string, i: int) {
    0 <= i < |s| && s[i] == 'x' && s[..i] != [] && s[i + 1..] != [] && AllDigits(s[..i]) && AllDigits(s[i + 1..])
  }

  /** A text reads as a resolution exactly when it splits at an 'x' into two
      non-empty runs of digits, which are the width and the height; so it
      has exactly one 'x'. */
  lemma ParseResolutionIff(s: string)
    ensures ParseResolution(s).Some? <==> exists i :: SplitAt(s, i)
    ensures ParseResolution(s).Some? ==> exists i | 0 <= i < |s| ::
      s[i] == 'x' && AllDigits(s[..i]) && AllDigits(s[i + 1..])
      && ParseResolution(s).value == Resolution(DigitsValue(s[..i]), DigitsValue(s[i + 1..]))
  {
    var i := IndexOfX(s);
    IndexOfXIsFirst(s);
    if i < |s| {
      ParseDigitsMeaning(s[..i]);
      ParseDigitsMeaning(s[i + 1..]);
      if ParseResolution(s).Some? {
        assert SplitAt(s, i);
      }
    }
    if exists j :: SplitAt(s, j) {
      var j :| SplitAt(s, j);
      SplitParses(s, j);
    }
  }

  /** A split into two runs of digits is the one the reader takes: the width
      is the value of the digits before the 'x', the height of those after. */
  lemma SplitParses(s: string, i: int)
    requires SplitAt(s, i)
    ensures ParseResolution(s) == Some(Resolution(DigitsValue(s[..i]), DigitsValue(s[i + 1..])))
  {
    assert 'x' !in s[..i] by {
      forall k | 0 <= k < i ensures s[..i][k] != 'x' {
        assert IsDigit(s[..i][k]);
      }
    }
    IndexOfXAt(s, i);
    ParseDigitsMeaning(s[..i]);
    ParseDigitsMeaning(s[i + 1..]);
  }

  /** Reading back a formatted resolution gives it again. */
  lemma ParseFormatRoundTrip(r: Resolution)
    ensures ParseResolution(FormatResolution(r)) == Some(r)
  {
    var w, h := DecimalText(r.width), DecimalText(r.height);
    var s := FormatResolution(r);
    assert s[..|w|] == w && s[|w|] == 'x' && s[|w| + 1..] == h;
    IndexOfXAt(s, |w|);
    ParseDecimalText(r.width);
    ParseDecimalText(r.height);
  }

  /** Whether a resolution reaches a minimum in both dimensions. */
  predicate Meets(r: Resolution, minimum: Resolution) {
    r.width >= minimum.width && r.height >= minimum.height
  }

  /** The two minimum resolutions of the requirements are the texts of
      640x480 and 720x480. */
  lemma MinimumTexts()
    ensures FormatResolution(Resolution(640, 480)) == "640x480"
    ensures FormatResolution(Resolution(720, 480)) == "720x480"
  {
    assert DecimalText(64) == "64" && DecimalText(72) == "72" && DecimalText(48) == "48";
    assert DecimalText(640) == "640" && DecimalText(720) == "720" && DecimalText(480) == "480";
  }

  /** Every test type's minimum resolution reads as a resolution: 720x480 for
      the sprint, 640x480 for every other type. */
  lemma MinResolutionsParse(testType: string)
    ensures ParseResolution(GetVideoRequirements(testType).minResolution) ==
      Some(if testType == Sprint then Resolution(720, 480) else Resolution(640, 480))
  {
    MinimumTexts();
    var minimum := if testType == Sprint then Resolution(720, 480) else Resolution(640, 480);
    ParseFormatRoundTrip(minimum);
  }

  // ---------------------------------------------------------------------
  // Validation

  /** What is known about an uploaded video; either part may be missing. */
  datatype VideoMetadata = VideoMetadata(duration: Option<real>, resolution: Option<string>)

  /** The message of a check; `MessageText` gives its exact wording. */
  datatype CheckMessage =
    | TooShortForSitUps
    | JumpDurationAdvice
    | DurationAppropriate
    | ResolutionMeetsMinimum
    | ResolutionBelowMinimum(minimum: string)

  function MessageText(m: CheckMessage): string {
    match m
    case TooShortForSitUps => "Video too short for 1-minute sit-up test"
    case JumpDurationAdvice => "Video duration should be 3-15 seconds for vertical jump"
    case DurationAppropriate => "Duration appropriate for test type"
    case ResolutionMeetsMinimum => "Resolution meets minimum requirements"
    case ResolutionBelowMinimum(minimum) => "Resolution below minimum " + minimum
  }

  /** One named check of the validation and its message. */
  datatype Check = Check(pass: bool, message: CheckMessage)

  /** A warning of the validation; `WarningText` gives its exact wording. */
  datatype Warning = DurationOutsideRange | LowResolution

  function WarningText(w: Warning): string {
    match w
    case DurationOutsideRange => "Duration outside recommended range"
    case LowResolution => "Low resolution may affect analysis accuracy"
  }

  /** A recommendation of the validation; `AdviceText` gives its exact
      wording. */
  datatype Advice = ReviewRequirements | ConsiderReRecording | EnsureCameraSetup

  function AdviceText(a: Advice): string {
    match a
    case ReviewRequirements => "Review video recording requirements"
    case ConsiderReRecording => "Consider re-recording with improved settings"
    case EnsureCameraSetup => "Ensure proper camera setup and lighting"
  }

  /** The recommendations given when the overall result fails. */
  const ReviewRecommendations: seq<Advice> := [ReviewRequirements, ConsiderReRecording, EnsureCameraSetup]

  datatype ValidationResults = ValidationResults(
    overallPass: bool,
    checks: map<string, Check>,
    warnings: seq<Warning>,
    recommendations: seq<Advice>)

  /** A resolution that has an 'x' but no number on one of its sides stops
      the validation. */
  datatype ValidationError = UnparsableResolution(resolution: string)

  /** The duration used: the one given, or 0. */
  function DurationOf(meta: VideoMetadata): real {
    if meta.duration.Some? then meta.duration.value else 0.0
  }

  /** The resolution text used: the one given, or "0x0". */
  function ResolutionTextOf(meta: VideoMetadata): string {
    if meta.resolution.Some? then meta.resolution.value else "0x0"
  }

  /** A sit-up recording shorter than 55 seconds: the one failure that fails
      the whole validation. */
  predicate SitUpsTooShort(testType: string, duration: real) {
    testType == SitUps && duration < 55.0
  }

  /** A vertical-jump recording outside 3 to 15 seconds. */
  predicate JumpOutOfRange(testType: string, duration: real) {
    testType == VerticalJump && (duration < 3.0 || duration > 15.0)
  }

  /** The resolution is checked only when it is non-empty and has an 'x'. */
  predicate ResolutionChecked(s: string) {
    s != "" && 'x' in s
  }

  /** The duration check: failed for a short sit-up recording or an
      out-of-range vertical jump, passed otherwise. */
  function DurationCheck(testType: string, duration: real): Check {
    if SitUpsTooShort(testType, duration) then Check(false, TooShortForSitUps)
    else if JumpOutOfRange(testType, duration) then Check(false, JumpDurationAdvice)
    else Check(true, DurationAppropriate)
  }

  /** The warning of the duration check: only an out-of-range vertical jump
      gets one. */
  function DurationWarnings(testType: string, duration: real): seq<Warning> {
    if JumpOutOfRange(testType, duration) then [DurationOutsideRange] else []
  }

  /** The resolution part of the validation: no check when the text is empty
      or has no 'x'; otherwise the comparison of both dimensions with the
      minimum, or a failure when either text does not read as "WxH". */
  function ResolutionPhase(res: string, minRes: string): Result<Option<Check>, ValidationError> {
    if !ResolutionChecked(res) then Success(None)
    else
      match (ParseResolution(res), ParseResolution(minRes))
      case (None, _) => Failure(UnparsableResolution(res))
      case (_, None) => Failure(UnparsableResolution(minRes))
      case (Some(size), Some(minimum)) =>
        Success(Some(
          if Meets(size, minimum) then Check(true, ResolutionMeetsMinimum)
          else Check(false, ResolutionBelowMinimum(minRes))))
  }

  /** The recommendations: the review steps exactly when the overall result
      fails. */
  function RecommendationsFor(overallPass: bool): seq<Advice> {
    if overallPass then [] else ReviewRecommendations
  }

  /** The validation of a video for a test type: the duration check always,
      the resolution check when the resolution text is non-empty and has an
      'x', a warning per failed check except the sit-up one, and the review
      recommendations when the overall result fails, which only a short
      sit-up recording does. A checked resolution that does not read as
      "WxH" stops the validation. */
  function Validation(meta: VideoMetadata, testType: string): (r: Result<ValidationResults, ValidationError>)
    ensures r.Failure? ==> ResolutionChecked(ResolutionTextOf(meta))
    ensures r.Success? ==> "duration" in r.value.checks && (r.value.recommendations == [] <==> r.value.overallPass)
  {
    var duration := DurationOf(meta);
    var overallPass := !SitUpsTooShort(testType, duration);
    var durationChecks := map["duration" := DurationCheck(testType, duration)];
    match ResolutionPhase(ResolutionTextOf(meta), GetVideoRequirements(testType).minResolution)
    case Failure(e) => Failure(e)
    case Success(None) =>
      Success(ValidationResults(overallPass, durationChecks,
        DurationWarnings(testType, duration), RecommendationsFor(overallPass)))
    case Success(Some(check)) =>
      Success(ValidationResults(overallPass, durationChecks["resolution" := check],
        DurationWarnings(testType, duration) + (if check.pass then [] else [LowResolution]),
        RecommendationsFor(overallPass)))
  }

  /** Against a minimum that reads as "WxH", the resolution part gives no
      check exactly when the text is empty or has no 'x'; it fails exactly
      when a checked text does not split at an 'x' into two runs of digits;
      and for such a split the check passes exactly when the number before
      the 'x' reaches the minimum width and the number after it the minimum
      height. */
  lemma ResolutionPhaseMeaning(v: string, minRes: string)
    requires ParseResolution(minRes).Some?
    ensures ResolutionPhase(v, minRes) == Success(None) <==> !ResolutionChecked(v)
    ensures ResolutionPhase(v, minRes).Failure? <==> ResolutionChecked(v) && forall i :: !SplitAt(v, i)
    ensures forall i | SplitAt(v, i) ::
      var minimum := ParseResolution(minRes).value;
      ResolutionPhase(v, minRes) == Success(Some(
        if DigitsValue(v[..i]) >= minimum.width && DigitsValue(v[i + 1..]) >= minimum.height
        then Check(true, ResolutionMeetsMinimum)
        else Check(false, ResolutionBelowMinimum(minRes))))
  {
    ParseResolutionIff(v);
    forall i | SplitAt(v, i)
      ensures ResolutionChecked(v)
      ensures ParseResolution(v) == Some(Resolution(DigitsValue(v[..i]), DigitsValue(v[i + 1..])))
    {
      assert v[i] == 'x';
      SplitParses(v, i);
    }
  }

  /** Compares a video's resolution with the minimum when its text is
      non-empty and has an 'x': both texts are split at the 'x' and read as
      numbers, and the check passes when both dimensions reach the minimum.
      Its outcome is the resolution phase, which `ResolutionPhaseMeaning`
      describes in terms of the text. */
  method CheckResolution(videoResolution: string, minResolution: string)
    returns (outcome: Result<Option<Check>, ValidationError>)
    ensures outcome == ResolutionPhase(videoResolution, minResolution)
  {
    if videoResolution != "" && 'x' in videoResolution {
      var size := ParseResolution(videoResolution);
      if size.None? {
        return Failure(UnparsableResolution(videoResolution));
      }
      var minimum := ParseResolution(minResolution);
      if minimum.None? {
        return Failure(UnparsableResolution(minResolution));
      }
      if size.value.width >= minimum.value.width && size.value.height >= minimum.value.height {
        outcome := Success(Some(Check(true, ResolutionMeetsMinimum)));
      } else {
        outcome := Success(Some(Check(false, ResolutionBelowMinimum(minResolution))));
      }
    } else {
      outcome := Success(None);
    }
  }

  /** Builds the validation results step by step: the duration check, then
      the resolution check with its warning, then the recommendations. */
  method ValidateVideoRequirements(meta: VideoMetadata, testType: string)
    returns (r: Result<ValidationResults, ValidationError>)
    ensures r == Validation(meta, testType)
  {
    var requirements := GetVideoRequirements(testType);
    var overallPass := true;
    var checks: map<string, Check> := map[];
    var warnings: seq<Warning> := [];
    var recommendations: seq<Advice> := [];

    var videoDuration := DurationOf(meta);
    if testType == SitUps && videoDuration < 55.0 {
      checks := checks["duration" := Check(false, TooShortForSitUps)];
      overallPass := false;
    } else if testType == VerticalJump && (videoDuration < 3.0 || videoDuration > 15.0) {
      checks := checks["duration" := Check(false, JumpDurationAdvice)];
      warnings := warnings + [DurationOutsideRange];
    } else {
      checks := checks["duration" := Check(true, DurationAppropriate)];
    }
    assert overallPass == !SitUpsTooShort(testType, videoDuration);
    assert checks == map["duration" := DurationCheck(testType, videoDuration)];
    assert warnings == DurationWarnings(testType, videoDuration);

    var outcome := CheckResolution(ResolutionTextOf(meta), requirements.minResolution);
    assert outcome == ResolutionPhase(ResolutionTextOf(meta), GetVideoRequirements(testType).minResolution);
    if outcome.Failure? {
      assert Validation(meta, testType) == Failure(outcome.error);
      return Failure(outcome.error);
    }
    if outcome.value.Some? {
      var check := outcome.value.value;
      checks := checks["resolution" := check];
      if !check.pass {
        warnings := warnings + [LowResolution];
      }
    }

    if !overallPass {
      recommendations := recommendations + ReviewRecommendations;
    }
    assert recommendations == RecommendationsFor(overallPass);
    r := Success(ValidationResults(overallPass, checks, warnings, recommendations));
    assert Validation(meta, testType).Success?;
    assert Validation(meta, testType).value.overallPass == overallPass;
    assert Validation(meta, testType).value.checks == checks;
    assert Validation(meta, testType).value.warnings == warnings;
    assert Validation(meta, testType).value.recommendations == recommendations;
  }

  /** Only a checked resolution text that does not read as "WxH" stops the
      validation, since every minimum resolution reads. */
  lemma ValidationFailsOnlyOnBadResolution(meta: VideoMetadata, testType: string)
    ensures Validation(meta, testType).Failure? <==>
      ResolutionChecked(ResolutionTextOf(meta)) && ParseResolution(ResolutionTextOf(meta)).None?
  {
    MinResolutionsParse(testType);
  }

  /** The overall result fails only for a sit-up recording shorter than 55
      seconds (a missing duration counting as 0); recommendations are the
      three review steps exactly when it fails, and none otherwise. */
  lemma ValidationOverallPass(meta: VideoMetadata, testType: string)
    requires Validation(meta, testType).Success?
    ensures var v := Validation(meta, testType).value;
      && (v.overallPass <==> !(testType == SitUps && DurationOf(meta) < 55.0))
      && (!v.overallPass ==> v.recommendations == ReviewRecommendations)
      && (v.overallPass ==> v.recommendations == [])
  {
  }

  /** The duration check is always present; it passes unless the recording
      is a short sit-up or an out-of-range vertical jump. An out-of-range
      vertical jump adds one warning and leaves the overall result passed. */
  lemma ValidationDurationCheck(meta: VideoMetadata, testType: string)
    requires Validation(meta, testType).Success?
    ensures var v := Validation(meta, testType).value;
      var d := DurationOf(meta);
      && "duration" in v.checks
      && (v.checks["duration"].pass <==>
            !(testType == SitUps && d < 55.0) && !(testType == VerticalJump && (d < 3.0 || d > 15.0)))
      && (testType == VerticalJump && (d < 3.0 || d > 15.0) ==>
            v.overallPass && |v.warnings| >= 1 && v.warnings[0] == DurationOutsideRange)
  {
    var _ := ValidationParts(meta, testType);
  }

  /** The resolution check is present exactly when the resolution text is
      non-empty and has an 'x'; it passes exactly when both dimensions reach
      the test's minimum, 720x480 for the sprint and 640x480 otherwise; when
      it fails, the low-resolution warning ends the warnings. */
  lemma ValidationResolutionCheck(meta: VideoMetadata, testType: string)
    requires Validation(meta, testType).Success?
    ensures var v := Validation(meta, testType).value;
      var res := ResolutionTextOf(meta);
      && v.checks.Keys <= {"duration", "resolution"}
      && ("resolution" in v.checks <==> ResolutionChecked(res))
      && (ResolutionChecked(res) ==>
            var size := ParseResolution(res).value;
            var minimum := if testType == Sprint then Resolution(720, 480) else Resolution(640, 480);
            && (v.checks["resolution"].pass <==> size.width >= minimum.width && size.height >= minimum.height)
            && (!v.checks["resolution"].pass ==> v.warnings[|v.warnings| - 1] == LowResolution))
  {
    var res := ResolutionTextOf(meta);
    var phase := ValidationParts(meta, testType);
    ResolutionPhaseAgainstMinimum(res, testType);
    if ResolutionChecked(res) {
      assert phase.Some?;
    }
  }

  /** The checks and warnings of a successful validation, given the outcome
      of its resolution part. */
  lemma ValidationParts(meta: VideoMetadata, testType: string) returns (phase: Option<Check>)
    requires Validation(meta, testType).Success?
    ensures ResolutionPhase(ResolutionTextOf(meta), GetVideoRequirements(testType).minResolution) == Success(phase)
    ensures var v := Validation(meta, testType).value;
      var d := DurationOf(meta);
      && v.checks == (if phase.Some? then map["duration" := DurationCheck(testType, d), "resolution" := phase.value]
                      else map["duration" := DurationCheck(testType, d)])
      && v.warnings == DurationWarnings(testType, d) + (if phase.Some? && !phase.value.pass then [LowResolution] else [])
  {
    phase := ResolutionPhase(ResolutionTextOf(meta), GetVideoRequirements(testType).minResolution).value;
  }

  /** Against a test type's own minimum, the resolution part checks exactly
      the non-empty texts with an 'x', and passes exactly when both
      dimensions reach 720x480 for the sprint and 640x480 otherwise. */
  lemma ResolutionPhaseAgainstMinimum(res: string, testType: string)
    ensures var phase := ResolutionPhase(res, GetVideoRequirements(testType).minResolution);
      var minimum := if testType == Sprint then Resolution(720, 480) else Resolution(640, 480);
      && (phase.Success? && phase.value.Some? ==>
            && ResolutionChecked(res)
            && ParseResolution(res).Some?
            && (phase.value.value.pass <==> Meets(ParseResolution(res).value, minimum))
            && (!phase.value.value.pass ==>
                  phase.value.value.message == ResolutionBelowMinimum(GetVideoRequirements(testType).minResolution)))
      && (phase == Success(None) <==> !ResolutionChecked(res))
  {
    MinResolutionsParse(testType);
  }

  /** The warnings are exactly one per failed check other than the sit-up
      duration: at most two. */
  lemma ValidationWarningsCount(meta: VideoMetadata, testType: string)
    requires Validation(meta, testType).Success?
    ensures var v := Validation(meta, testType).value;
      |v.warnings| ==
        (if JumpOutOfRange(testType, DurationOf(meta)) then 1 else 0)
        + (if "resolution" in v.checks && !v.checks["resolution"].pass then 1 else 0)
  {
  }

  /** A video without a resolution is checked as "0x0", so its resolution
      check always fails. */
  lemma MissingResolutionFailsCheck(duration: Option<real>, testType: string)
    ensures var r := Validation(VideoMetadata(duration, None), testType);
      r.Success? && "resolution" in r.value.checks && !r.value.checks["resolution"].pass
  {
    var meta := VideoMetadata(duration, None);
    assert ResolutionTextOf(meta) == "0x0";
    assert FormatResolution(Resolution(0, 0)) == "0x0" by { assert DecimalText(0) == "0"; }
    ParseFormatRoundTrip(Resolution(0, 0));
    MinResolutionsParse(testType);
    assert ResolutionChecked("0x0") by { assert "0x0"[1] == 'x'; }
    var phase := ResolutionPhase("0x0", GetVideoRequirements(testType).minResolution);
    assert phase.Success? && phase.value.Some? && !phase.value.value.pass;
  }
}
