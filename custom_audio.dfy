/**
 * The analysis side of the custom-audio tester
 * (`layer2RLdiagnosis-model-2/test_custom_audio.py`): the guard against a missing
 * agent, the report built from an episode's results, and the two five-band
 * classifiers of the severity.
 *
 * The trained agent is not part of this model: the diagnoses it makes on an episode
 * are given as input, constrained to what the detection environment records.
 */
module CustomAudio {
  import opened Wrappers
  import opened Numeric
  import DetectionEnv
  import DatasetLoader

  // ---------------------------------------------------------------- classifiers

  datatype SeverityLevel = VeryLow | Low | Moderate | High | VeryHigh
  {
    function Name(): string
    {
      match this
      case VeryLow => "Very Low"
      case Low => "Low"
      case Moderate => "Moderate"
      case High => "High"
      case VeryHigh => "Very High"
    }

    function Rank(): nat
    {
      match this
      case VeryLow => 0
      case Low => 1
      case Moderate => 2
      case High => 3
      case VeryHigh => 4
    }
  }

  /** `_get_severity_level`: cut-offs 0.1, 0.25, 0.5 and 0.75. */
  function GetSeverityLevel(severity: real): SeverityLevel
  {
    if severity < 0.1 then VeryLow
    else if severity < 0.25 then Low
    else if severity < 0.5 then Moderate
    else if severity < 0.75 then High
    else VeryHigh
  }

  datatype Advice = KeepMonitoring | LifestyleChanges | SeeSpecialist | ImmediateAttention | UrgentEvaluation
  {
    function Text(): string
    {
      match this
      case KeepMonitoring => "No immediate action needed. Continue monitoring."
      case LifestyleChanges => "Consider lifestyle changes and monitor sleep patterns."
      case SeeSpecialist => "Consult a sleep specialist for evaluation."
      case ImmediateAttention => "Immediate medical attention recommended."
      case UrgentEvaluation => "Urgent medical evaluation required."
    }
  }

  /** `_get_recommendation`: the same cut-offs as the level. */
  function GetRecommendation(severity: real): Advice
  {
    if severity < 0.1 then KeepMonitoring
    else if severity < 0.25 then LifestyleChanges
    else if severity < 0.5 then SeeSpecialist
    else if severity < 0.75 then ImmediateAttention
    else UrgentEvaluation
  }

  /** The advice that goes with each level. */
  function AdviceFor(level: SeverityLevel): Advice
  {
    match level
    case VeryLow => KeepMonitoring
    case Low => LifestyleChanges
    case Moderate => SeeSpecialist
    case High => ImmediateAttention
    case VeryHigh => UrgentEvaluation
  }

  /** The two classifiers agree band for band, the level never falls as the severity
      grows, and each level's advice belongs to it alone. */
  lemma ClassifiersAgree(s: real, t: real)
    ensures GetRecommendation(s) == AdviceFor(GetSeverityLevel(s))
    ensures s <= t ==> GetSeverityLevel(s).Rank() <= GetSeverityLevel(t).Rank()
    ensures GetRecommendation(s) == GetRecommendation(t) <==> GetSeverityLevel(s) == GetSeverityLevel(t)
  {
  }

  /** The reliability label of a calibration error. */
  datatype Reliability = HighReliability | MediumReliability | LowReliability
  {
    function Name(): string
    {
      match this
      case HighReliability => "High"
      case MediumReliability => "Medium"
      case LowReliability => "Low"
    }
  }

  /** `confidence_reliability`: High below 0.1, Medium below 0.2, else Low. */
  function ReliabilityOf(ece: real): (r: Reliability)
    ensures r == HighReliability <==> ece < 0.1
    ensures r == LowReliability <==> ece >= 0.2
  {
    if ece < 0.1 then HighReliability else if ece < 0.2 then MediumReliability else LowReliability
  }

  // ---------------------------------------------------------------- the report

  /** An entry of `apnea_events`. */
  datatype ApneaEvent = ApneaEvent(timestamp: real, duration: real, confidence: real, segmentIndex: nat)

  datatype AudioInfo = AudioInfo(totalDuration: real, segmentCount: nat, sampleRate: int)

  datatype ConfidenceAnalysis = ConfidenceAnalysis(medianConfidence: real, eceScore: real, reliability: Reliability)

  /** `severity_assessment`; `apnea_frequency` is kept as its two numbers. */
  datatype SeverityAssessment = SeverityAssessment(severityScore: real, level: SeverityLevel,
                                                   apneaCount: real, segmentCount: nat, recommendation: Advice)

  /** The analysis dictionary; an empty sub-dictionary is None. */
  datatype Analysis = Analysis(info: AudioInfo, events: seq<ApneaEvent>,
                               confidence: Option<ConfidenceAnalysis>, severity: Option<SeverityAssessment>)

  /** The start time of the segment at `index`. */
  function Stamp(index: nat, segmentDuration: real): real
  {
    index as real * segmentDuration
  }

  /** The events loop as written: a diagnosis of an apnea segment becomes an event
      stamped with its position among the diagnoses. */
  function EventsByPosition(ds: seq<DetectionEnv.Diagnosis>, segmentDuration: real): seq<ApneaEvent>
  {
    if |ds| == 0 then []
    else
      var i := |ds| - 1;
      EventsByPosition(ds[..i], segmentDuration) +
      (if ds[i].segmentLabel == 1.0
       then [ApneaEvent(Stamp(i, segmentDuration), segmentDuration, ds[i].confidence, i)] else [])
  }

  /** The loop of `_analyze_results` over `diagnosed_segments`. */
  method AnalyzeEvents(ds: seq<DetectionEnv.Diagnosis>, segmentDuration: real) returns (events: seq<ApneaEvent>)
    ensures events == EventsByPosition(ds, segmentDuration)
  {
    events := [];
    var i := 0;
    while i < |ds|
      invariant 0 <= i <= |ds|
      invariant events == EventsByPosition(ds[..i], segmentDuration)
    {
      assert ds[..i + 1][..i] == ds[..i];
      assert ds[..i + 1][i] == ds[i];
      if ds[i].segmentLabel == 1.0 {
        events := events + [ApneaEvent(Stamp(i, segmentDuration), segmentDuration, ds[i].confidence, i)];
      }
      i := i + 1;
    }
    assert ds[..i] == ds;
  }

  /** One event per apnea diagnosis, in order, each stamped with its position. */
  lemma {:induction false} EventsByPositionMeaning(ds: seq<DetectionEnv.Diagnosis>, segmentDuration: real)
    ensures forall e :: e in EventsByPosition(ds, segmentDuration) ==>
      e.segmentIndex < |ds| && ds[e.segmentIndex].segmentLabel == 1.0 &&
      e.timestamp == Stamp(e.segmentIndex, segmentDuration) && e.duration == segmentDuration &&
      e.confidence == ds[e.segmentIndex].confidence
    ensures forall i :: 0 <= i < |ds| && ds[i].segmentLabel == 1.0 ==>
      exists e :: e in EventsByPosition(ds, segmentDuration) && e.segmentIndex == i
    ensures (forall i :: 0 <= i < |ds| ==> ds[i].segmentLabel != 1.0) ==> EventsByPosition(ds, segmentDuration) == []
  {
    if |ds| > 0 {
      var i := |ds| - 1;
      EventsByPositionMeaning(ds[..i], segmentDuration);
      var ev := EventsByPosition(ds[..i], segmentDuration);
      var tail := if ds[i].segmentLabel == 1.0
                  then [ApneaEvent(Stamp(i, segmentDuration), segmentDuration, ds[i].confidence, i)] else [];
      assert EventsByPosition(ds, segmentDuration) == ev + tail;
      forall j | 0 <= j < |ds| && ds[j].segmentLabel == 1.0
        ensures exists e :: e in EventsByPosition(ds, segmentDuration) && e.segmentIndex == j
      {
        if j < i {
          assert ds[..i][j] == ds[j];
          var e :| e in ev && e.segmentIndex == j;
          assert e in EventsByPosition(ds, segmentDuration);
        } else {
          var e := ApneaEvent(Stamp(i, segmentDuration), segmentDuration, ds[i].confidence, i);
          assert e in EventsByPosition(ds, segmentDuration);
        }
      }
    }
  }

  /** The events with the evidently intended time: each diagnosis is stamped with the
      start of the segment it names. */
  function EventsBySegment(ds: seq<DetectionEnv.Diagnosis>, segmentDuration: real): (r: seq<ApneaEvent>)
    ensures forall e :: e in r ==> e.timestamp == Stamp(e.segmentIndex, segmentDuration)
    ensures forall e :: e in r ==> exists d :: d in ds && d.segmentIdx == e.segmentIndex && d.segmentLabel == 1.0
  {
    if |ds| == 0 then []
    else
      var d := ds[|ds| - 1];
      EventsBySegment(ds[..|ds| - 1], segmentDuration) +
      (if d.segmentLabel == 1.0
       then [ApneaEvent(Stamp(d.segmentIdx, segmentDuration), segmentDuration, d.confidence, d.segmentIdx)] else [])
  }

  /** A WAIT before a DIAGNOSE shifts the report: an apnea found in the second
      10-second segment is reported at 0 s instead of 10 s. */
  lemma PositionMisplacesEvent()
    ensures var ds := [DetectionEnv.Diagnosis(1, 1.0, 0.7, 0.91)];
      EventsByPosition(ds, 10.0) == [ApneaEvent(0.0, 10.0, 0.7, 0)] &&
      EventsBySegment(ds, 10.0) == [ApneaEvent(10.0, 10.0, 0.7, 1)]
  {
    var ds := [DetectionEnv.Diagnosis(1, 1.0, 0.7, 0.91)];
    assert ds[..0] == [];
  }

  /** When every segment up to the last diagnosis was diagnosed (no WAIT), position and
      segment agree and the two event lists coincide. */
  lemma {:induction false} EventsAgreeWithoutWaits(ds: seq<DetectionEnv.Diagnosis>, segmentDuration: real)
    requires forall i :: 0 <= i < |ds| ==> ds[i].segmentIdx == i
    ensures EventsByPosition(ds, segmentDuration) == EventsBySegment(ds, segmentDuration)
  {
    if |ds| > 0 {
      var init := ds[..|ds| - 1];
      assert forall i :: 0 <= i < |init| ==> init[i] == ds[i];
      EventsAgreeWithoutWaits(init, segmentDuration);
      assert ds[|ds| - 1].segmentIdx == |ds| - 1;
    }
  }

  /** `_analyze_results` for the results of a detection episode (None when no segment
      was diagnosed, which the source sees as an empty dictionary).  The median of the
      confidences is given, as `np.median` is not modelled. */
  method AnalyzeResults(results: Option<DetectionEnv.EpisodeResults>, medianConfidence: real,
                        segmentCount: nat, sampleRate: int, segmentDuration: real) returns (a: Analysis)
    ensures a.info == AudioInfo(segmentCount as real * segmentDuration, segmentCount, sampleRate)
    ensures results.None? ==> a.events == [] && a.confidence.None? && a.severity.None?
    ensures results.Some? ==>
      var e := results.value;
      a.events == EventsByPosition(e.diagnosedSegments, segmentDuration) &&
      a.confidence == Some(ConfidenceAnalysis(medianConfidence, e.ece, ReliabilityOf(e.ece))) &&
      a.severity == Some(SeverityAssessment(e.severity, GetSeverityLevel(e.severity), e.apneaCount,
                                            segmentCount, GetRecommendation(e.severity)))
  {
    var info := AudioInfo(segmentCount as real * segmentDuration, segmentCount, sampleRate);
    if results.None? {
      return Analysis(info, [], None, None);
    }
    var e := results.value;
    var events := AnalyzeEvents(e.diagnosedSegments, segmentDuration);
    var reliability := if e.ece < 0.1 then HighReliability else if e.ece < 0.2 then MediumReliability else LowReliability;
    var confidence := ConfidenceAnalysis(medianConfidence, e.ece, reliability);
    var severity := SeverityAssessment(e.severity, GetSeverityLevel(e.severity), e.apneaCount,
                                       segmentCount, GetRecommendation(e.severity));
    a := Analysis(info, events, Some(confidence), Some(severity));
  }

  /** `test_audio_file` from the loaded clip on: ValueError without an agent, an empty
      result when the clip could not be loaded or gives no segment, otherwise the
      analysis of the episode the agent plays over the segments, all labelled 0.  The
      agent's diagnoses are given, as the environment records them. */
  method TestAudioFile(agentLoaded: bool, audio: Option<seq<real>>, sampleRate: int, segmentLength: int,
                       segmentDuration: real, ds: seq<DetectionEnv.Diagnosis>) returns (r: Result<Option<Analysis>>)
    requires audio.Some? && segmentLength > 0 ==>
      DetectionEnv.DiagnosesConsistent(seq(1, _ => 0.0), ds, 1)
    ensures !agentLoaded ==> r.Err? && r.error.ValueError?
    ensures agentLoaded && audio.None? ==> r == Ok(None)
    ensures agentLoaded && audio.Some? && segmentLength == 0 ==> r == Err(ZeroDivisionError)
    ensures agentLoaded && audio.Some? && segmentLength < 0 ==> r == Ok(None)
    ensures agentLoaded && audio.Some? && segmentLength > 0 ==>
      r.Ok? && r.value.Some? && r.value.value.info.segmentCount == 1 &&
      r.value.value.events == [] &&
      (ds != [] ==> r.value.value.severity.Some? && r.value.value.severity.value.level == VeryLow &&
                    r.value.value.confidence.Some? && r.value.value.confidence.value.reliability == LowReliability)
  {
    if !agentLoaded {
      return Err(ValueError("Agent not loaded. Please train the agent first."));
    }
    if audio.None? {
      return Ok(None);
    }
    var segments := DatasetLoader.SegmentAudio(audio.value, segmentLength);
    if segments.Err? {
      return Err(segments.error);
    }
    if |segments.value| == 0 {
      return Ok(None);
    }
    var labels := seq(|segments.value|, _ => 0.0);
    var results: Option<DetectionEnv.EpisodeResults> := None;
    if ds != [] {
      results := Some(DetectionEnv.ResultsOf(ds));
      NoApneaResults(ds);
    }
    var analysis := AnalyzeResults(results, DetectionEnv.PlaceholderConfidence, |segments.value|, sampleRate, segmentDuration);
    EventsByPositionMeaning(ds, segmentDuration);
    r := Ok(Some(analysis));
  }

  /** On an episode whose every label is 0, the severity is 0 and the calibration error
      is the whole placeholder confidence. */
  lemma NoApneaResults(ds: seq<DetectionEnv.Diagnosis>)
    requires ds != [] && DetectionEnv.DiagnosesConsistent(seq(1, _ => 0.0), ds, 1)
    ensures DetectionEnv.ResultsOf(ds).severity == 0.0
    ensures DetectionEnv.ResultsOf(ds).ece == 0.7
    ensures forall i :: 0 <= i < |ds| ==> ds[i].segmentLabel == 0.0
  {
    DetectionEnv.ResultsMeaning(ds);
    var ls := DetectionEnv.Labels(ds);
    assert ls == [0.0];
    assert ls[..0] == [];
    assert Sum(ls) == 0.0;
  }
}
