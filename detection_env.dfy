/**
 * The episode environment of the model-2 audio agent: an episode walks the
 * audio segments of one patient; WAIT moves on, DIAGNOSE scores the current
 * segment with the placeholder confidence 0.7 and moves on, ESCALATE ends
 * the episode.  Mel-spectrogram extraction is done by librosa in the source;
 * here it is the function `extract`, applied to each segment.
 */
module DetectionEnv {
  import opened Wrappers
  import opened Numeric
  import Calibration

  const Wait: int := 0
  const Diagnose: int := 1
  const Escalate: int := 2

  /** The confidence every DIAGNOSE step uses. */
  const PlaceholderConfidence: real := 0.7

  /** correctness - (confidence - correctness)^2. */
  function CalibrationReward(correctness: real, confidence: real): real
  {
    correctness - (confidence - correctness) * (confidence - correctness)
  }

  /** With the placeholder confidence, an apnea segment earns 0.91 and a normal one -0.49. */
  lemma PlaceholderRewards()
    ensures CalibrationReward(1.0, PlaceholderConfidence) == 0.91
    ensures CalibrationReward(0.0, PlaceholderConfidence) == -0.49
  {
  }

  /** The record a DIAGNOSE step appends. */
  datatype Diagnosis = Diagnosis(segmentIdx: nat, segmentLabel: real, confidence: real, reward: real)

  datatype StepOutcome = StepOutcome(observation: seq<real>, reward: real, done: bool, truncated: bool)

  /** `get_episode_results` of a non-empty episode (the median confidence is not modelled). */
  datatype EpisodeResults = EpisodeResults(
    totalSegments: nat, apneaCount: real, normalCount: real, severity: real,
    ece: real, meanReward: real, diagnosedSegments: seq<Diagnosis>)

  /** The diagnoses agree with the labels of the segments they name, which strictly
      increase and lie before the cursor. */
  ghost predicate DiagnosesConsistent(labels: seq<real>, ds: seq<Diagnosis>, cursor: nat)
  {
    |ds| <= cursor
    && (forall i :: 0 <= i < |ds| ==> ds[i].segmentIdx < cursor && ds[i].segmentIdx < |labels|)
    && (forall j, k :: 0 <= j < k < |ds| ==> ds[j].segmentIdx < ds[k].segmentIdx)
    && (forall i :: 0 <= i < |ds| ==>
          ds[i].segmentLabel == labels[ds[i].segmentIdx]
          && ds[i].confidence == PlaceholderConfidence
          && ds[i].reward == CalibrationReward(ds[i].segmentLabel, PlaceholderConfidence))
  }

  function Labels(ds: seq<Diagnosis>): seq<real>
  {
    seq(|ds|, i requires 0 <= i < |ds| => ds[i].segmentLabel)
  }

  function Confidences(ds: seq<Diagnosis>): seq<real>
  {
    seq(|ds|, i requires 0 <= i < |ds| => ds[i].confidence)
  }

  function Rewards(ds: seq<Diagnosis>): seq<real>
  {
    seq(|ds|, i requires 0 <= i < |ds| => ds[i].reward)
  }

  /** The results record of a non-empty list of diagnoses. */
  function ResultsOf(ds: seq<Diagnosis>): EpisodeResults
    requires |ds| > 0
  {
    var n := |ds| as real;
    var apnea := Sum(Labels(ds));
    EpisodeResults(|ds|, apnea, n - apnea, apnea / n,
                   Calibration.Ece(Confidences(ds), Labels(ds), 10), Mean(Rewards(ds)), ds)
  }

  /** The counts add up, the severity is the share of apnea labels (in [0, 1] for 0/1
      labels), and since every confidence is 0.7 the calibration error is the distance
      between 0.7 and that share. */
  lemma ResultsMeaning(ds: seq<Diagnosis>)
    requires |ds| > 0
    requires forall i :: 0 <= i < |ds| ==> ds[i].confidence == PlaceholderConfidence
    requires forall i :: 0 <= i < |ds| ==> 0.0 <= ds[i].segmentLabel <= 1.0
    ensures ResultsOf(ds).apneaCount + ResultsOf(ds).normalCount == ResultsOf(ds).totalSegments as real
    ensures 0.0 <= ResultsOf(ds).severity <= 1.0
    ensures ResultsOf(ds).ece == Abs(PlaceholderConfidence - ResultsOf(ds).severity)
  {
    var ls := Labels(ds);
    var cs := Confidences(ds);
    SumBounds(ls, 0.0, 1.0);
    RatioWithinUnit(Sum(ls), |ds| as real);
    assert Calibration.InBin(PlaceholderConfidence, 6, 10);
    Calibration.ConstantConfidenceGap(cs, ls, PlaceholderConfidence, 6, 10);
  }

  class ApneaDetectionEnv {
    const audioSegments: seq<seq<real>>
    const labels: seq<real>
    const segmentDuration: real
    const sampleRate: int
    /** The observation of each segment. */
    const features: seq<seq<real>>

    var currentSegmentIdx: nat
    var diagnosedSegments: seq<Diagnosis>
    var escalated: bool

    ghost predicate Valid()
      reads this
    {
      |features| == |audioSegments|
      && DiagnosesConsistent(labels, diagnosedSegments, currentSegmentIdx)
    }

    constructor (segments: seq<seq<real>>, segmentLabels: seq<real>, extract: seq<real> -> seq<real>,
                 duration: real, rate: int)
      ensures Valid()
      ensures audioSegments == segments && labels == segmentLabels
      ensures segmentDuration == duration && sampleRate == rate
      ensures features == seq(|segments|, i requires 0 <= i < |segments| => extract(segments[i]))
      ensures currentSegmentIdx == 0 && diagnosedSegments == [] && !escalated
    {
      audioSegments := segments;
      labels := segmentLabels;
      segmentDuration := duration;
      sampleRate := rate;
      features := seq(|segments|, i requires 0 <= i < |segments| => extract(segments[i]));
      currentSegmentIdx := 0;
      diagnosedSegments := [];
      escalated := false;
    }

    /** Back to the first segment with nothing diagnosed.  The state is reset first, so on
        an environment without segments the lookup of the first observation then raises
        IndexError. */
    method Reset() returns (r: Result<(seq<real>, nat)>)
      requires Valid()
      modifies this
      ensures Valid()
      ensures currentSegmentIdx == 0 && diagnosedSegments == [] && !escalated
      ensures |features| == 0 ==> r == Err(IndexError)
      ensures |features| > 0 ==> r.Ok? && r.value.0 == features[0] && r.value.1 == |audioSegments|
    {
      currentSegmentIdx := 0;
      diagnosedSegments := [];
      escalated := false;
      if |features| == 0 {
        return Err(IndexError);
      }
      r := Ok((features[0], |audioSegments| as nat));
    }

    /** One step.  A DIAGNOSE past the last label raises IndexError before anything changes.
        Otherwise the action takes effect; on an environment without segments the episode
        is then over and the zero observation, shaped like the first segment's, raises
        IndexError. */
    method Step(action: int) returns (r: Result<StepOutcome>)
      requires Valid()
      modifies this
      ensures Valid()
      ensures action == Diagnose && old(currentSegmentIdx) >= |labels| ==>
        r == Err(IndexError) && currentSegmentIdx == old(currentSegmentIdx)
        && diagnosedSegments == old(diagnosedSegments) && escalated == old(escalated)
      ensures !(action == Diagnose && old(currentSegmentIdx) >= |labels|) ==>
        (action == Wait || action == Diagnose ==> currentSegmentIdx == old(currentSegmentIdx) + 1)
        && (action != Wait && action != Diagnose ==> currentSegmentIdx == old(currentSegmentIdx))
        && (action == Diagnose ==>
              var truth := labels[old(currentSegmentIdx)];
              diagnosedSegments == old(diagnosedSegments)
                + [Diagnosis(old(currentSegmentIdx), truth, PlaceholderConfidence,
                             CalibrationReward(truth, PlaceholderConfidence))])
        && (action != Diagnose ==> diagnosedSegments == old(diagnosedSegments))
        && (action == Escalate ==> escalated)
        && (action != Escalate ==> escalated == old(escalated))
        && (|features| == 0 ==> r == Err(IndexError))
        && (|features| > 0 ==> r.Ok?)
      ensures r.Ok? ==>
        var out := r.value;
        (action == Diagnose ==> out.reward == CalibrationReward(labels[old(currentSegmentIdx)], PlaceholderConfidence))
        && (action == Escalate ==> out.reward == -0.1)
        && (action != Diagnose && action != Escalate ==> out.reward == 0.0)
        && out.done == (action == Escalate || currentSegmentIdx >= |audioSegments|)
        && !out.truncated
        && (!out.done ==> out.observation == features[currentSegmentIdx])
        && (out.done ==> out.observation == seq(|features[0]|, _ => 0.0))
    {
      var done := false;
      var reward := 0.0;
      if action == Wait {
        reward := 0.0;
        currentSegmentIdx := currentSegmentIdx + 1;
      } else if action == Diagnose {
        if currentSegmentIdx >= |labels| {
          return Err(IndexError);
        }
        var truth := labels[currentSegmentIdx];
        var confidence := PlaceholderConfidence;
        var correctness := truth;
        reward := correctness - (confidence - correctness) * (confidence - correctness);
        assert reward == CalibrationReward(truth, PlaceholderConfidence);
        diagnosedSegments := diagnosedSegments + [Diagnosis(currentSegmentIdx, truth, confidence, reward)];
        currentSegmentIdx := currentSegmentIdx + 1;
      } else if action == Escalate {
        reward := -0.1;
        escalated := true;
        done := true;
      }
      if currentSegmentIdx >= |audioSegments| {
        done := true;
      }
      var obs;
      if !done {
        obs := features[currentSegmentIdx];
      } else {
        if |features| == 0 {
          return Err(IndexError);
        }
        obs := seq(|features[0]|, _ => 0.0);
      }
      return Ok(StepOutcome(obs, reward, done, false));
    }

    /** `get_episode_results`: nothing before the first diagnosis, otherwise the results
        record of the diagnoses. */
    method GetEpisodeResults() returns (r: Option<EpisodeResults>)
      requires Valid()
      ensures r.None? <==> diagnosedSegments == []
      ensures r.Some? ==> r.value == ResultsOf(diagnosedSegments)
    {
      if diagnosedSegments == [] {
        return None;
      }
      var ds := diagnosedSegments;
      var n := |ds|;
      var ls := Labels(ds);
      var apnea := Sum(ls);
      var ece := CalculateEce(ls, Confidences(ds));
      r := Some(EpisodeResults(n, apnea, n as real - apnea, apnea / (n as real), ece, Mean(Rewards(ds)), ds));
    }

    /** The severity and calibration of any episode, given 0/1 labels. */
    lemma EpisodeResultsMeaning()
      requires Valid() && diagnosedSegments != []
      requires forall i :: 0 <= i < |labels| ==> labels[i] == 0.0 || labels[i] == 1.0
      ensures 0.0 <= ResultsOf(diagnosedSegments).severity <= 1.0
      ensures ResultsOf(diagnosedSegments).ece == Abs(PlaceholderConfidence - ResultsOf(diagnosedSegments).severity)
    {
      ResultsMeaning(diagnosedSegments);
    }
  }

  /** `_calculate_ece`: the binned calibration error over ten bins, divided by the number
      of labels. */
  method CalculateEce(ls: seq<real>, cs: seq<real>) returns (ece: real)
    requires |ls| == |cs| > 0
    ensures ece == Calibration.Ece(cs, ls, 10)
    ensures (forall i :: 0 <= i < |ls| ==> 0.0 <= ls[i] <= 1.0) ==> 0.0 <= ece <= 1.0
  {
    var total := Calibration.BinnedGapTotal(cs, ls, 10);
    ece := total / (|ls| as real);
    if forall i :: 0 <= i < |ls| ==> 0.0 <= ls[i] <= 1.0 {
      Calibration.EceBounded(cs, ls, 10);
    }
  }

  datatype PatientEpisodeData = PatientEpisodeData(segments: seq<seq<real>>, labels: seq<real>)

  /** Holds the patients' data and builds an environment per patient on request. */
  class ApneaDetectionEnvWrapper {
    const patientData: map<string, PatientEpisodeData>
    /** The dictionary's keys in insertion order. */
    const patientOrder: seq<string>
    const extract: seq<real> -> seq<real>
    var currentPatient: Option<string>
    var currentEnv: ApneaDetectionEnv?

    ghost predicate Valid()
      reads this
    {
      (forall p :: p in patientOrder <==> p in patientData)
      && (forall j, k :: 0 <= j < k < |patientOrder| ==> patientOrder[j] != patientOrder[k])
    }

    constructor (data: map<string, PatientEpisodeData>, order: seq<string>, extractor: seq<real> -> seq<real>)
      requires forall p :: p in order <==> p in data
      requires forall j, k :: 0 <= j < k < |order| ==> order[j] != order[k]
      ensures Valid()
      ensures patientData == data && patientOrder == order && extract == extractor
      ensures currentPatient.None? && currentEnv == null
    {
      patientData := data;
      patientOrder := order;
      extract := extractor;
      currentPatient := None;
      currentEnv := null;
    }

    /** `reset_patient`: ValueError for an unknown patient, otherwise a fresh environment
        over that patient's segments and labels (10-second segments at 16 kHz). */
    method ResetPatient(id: string) returns (r: Result<ApneaDetectionEnv>)
      requires Valid()
      modifies this
      ensures Valid()
      ensures id !in patientData ==>
        r.Err? && r.error.ValueError? && currentPatient == old(currentPatient) && currentEnv == old(currentEnv)
      ensures id in patientData ==>
        r.Ok? && fresh(r.value) && r.value.Valid()
        && currentPatient == Some(id) && currentEnv == r.value
        && r.value.audioSegments == patientData[id].segments && r.value.labels == patientData[id].labels
        && r.value.segmentDuration == 10.0 && r.value.sampleRate == 16000
        && r.value.currentSegmentIdx == 0 && r.value.diagnosedSegments == []
    {
      if id !in patientData {
        return Err(ValueError("Patient " + id + " not found in data"));
      }
      var info := patientData[id];
      currentPatient := Some(id);
      var env := new ApneaDetectionEnv(info.segments, info.labels, extract, 10.0, 16000);
      currentEnv := env;
      return Ok(env);
    }

    /** `get_patient_ids`: every patient once. */
    function GetPatientIds(): (ids: seq<string>)
      reads this
      requires Valid()
      ensures forall p :: p in ids <==> p in patientData
      ensures forall j, k :: 0 <= j < k < |ids| ==> ids[j] != ids[k]
    {
      patientOrder
    }
  }
}
