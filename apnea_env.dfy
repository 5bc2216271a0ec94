/**
 * The episode environment of the v1 diagnosis agent: one episode walks
 * through the 10-second segments of one patient, and at each step the agent
 * waits, diagnoses the current segment or escalates.
 *
 * The confidence a DIAGNOSE step uses is a draw of the source (a feature
 * heuristic clipped to [0.1, 0.9], redrawn uniformly from [0.3, 0.9] when
 * below 0.3); here it is a parameter of `Step` in [0.3, 0.9].  The patient an
 * episode starts with is drawn at random; here it is the index `choice`.
 */
module EpisodeEnv {
  import opened Wrappers
  import opened Numeric
  import Calibration

  const Wait: int := 0
  const Diagnose: int := 1
  const Escalate: int := 2

  /** Every segment lasts ten seconds. */
  const SegmentSeconds: real := 10.0

  /** The segments of one patient, in recording order, and their row positions. */
  datatype PatientSegments = PatientSegments(features: seq<seq<real>>, labels: seq<real>, indices: seq<nat>)

  /** What a DIAGNOSE step records about the segment it diagnosed. */
  datatype EventDetail = EventDetail(
    timestamp: real, prediction: int, confidence: real,
    trueLabel: real, correctness: real, reward: real)

  /** A predicted apnea event in the episode metrics; `step` is its position among the predictions. */
  datatype ApneaEventDetail = ApneaEventDetail(timestamp: real, confidence: real, step: nat)

  datatype EpisodeMetrics = EpisodeMetrics(
    patientId: string,
    accuracy: real,
    ece: real,
    meanConfidence: real,
    nPredictions: nat,
    nApneaEvents: int,
    severityScore: real,
    ahiScore: real,
    apneaEventDetails: seq<ApneaEventDetail>,
    totalDurationMinutes: real,
    apneaFrequencyPerHour: real)

  // ---------------------------------------------------------------- grouping by patient

  function IdSet(ids: seq<string>): set<string>
  {
    set i | 0 <= i < |ids| :: ids[i]
  }

  /** Ascending positions at which `p` occurs in `ids` (`np.where(mask)[0]`). */
  function Positions(ids: seq<string>, p: string): (r: seq<nat>)
    ensures forall j :: 0 <= j < |r| ==> r[j] < |ids| && ids[r[j]] == p
  {
    if |ids| == 0 then []
    else Positions(ids[..|ids| - 1], p) + (if ids[|ids| - 1] == p then [|ids| - 1] else [])
  }

  /** `xs[mask]` for the mask whose true positions are `pos`. */
  function Select<T>(xs: seq<T>, pos: seq<nat>): seq<T>
    requires forall j :: 0 <= j < |pos| ==> pos[j] < |xs|
  {
    seq(|pos|, j requires 0 <= j < |pos| => xs[pos[j]])
  }

  /** The per-patient table built by `_organize_by_patient`. */
  function OrganizeByPatient(features: seq<seq<real>>, labels: seq<real>, ids: seq<string>): map<string, PatientSegments>
    requires |features| == |ids| && |labels| == |ids|
  {
    map p | p in IdSet(ids) ::
      PatientSegments(Select(features, Positions(ids, p)), Select(labels, Positions(ids, p)), Positions(ids, p))
  }

  lemma {:induction false} PositionsExact(ids: seq<string>, p: string)
    ensures forall j, k :: 0 <= j < k < |Positions(ids, p)| ==> Positions(ids, p)[j] < Positions(ids, p)[k]
    ensures forall i :: 0 <= i < |ids| && ids[i] == p ==> i in Positions(ids, p)
  {
    if |ids| > 0 {
      PositionsExact(ids[..|ids| - 1], p);
    }
  }

  /** Each patient's record holds exactly the rows tagged with that patient, in their
      original order, and no patient is left without rows. */
  lemma OrganizeByPatientExact(features: seq<seq<real>>, labels: seq<real>, ids: seq<string>)
    requires |features| == |ids| && |labels| == |ids|
    ensures OrganizeByPatient(features, labels, ids).Keys == IdSet(ids)
    ensures forall p :: p in OrganizeByPatient(features, labels, ids) ==>
      var rec := OrganizeByPatient(features, labels, ids)[p];
      |rec.features| == |rec.labels| == |rec.indices| > 0
      && (forall j :: 0 <= j < |rec.indices| ==>
            rec.indices[j] < |ids| && ids[rec.indices[j]] == p
            && rec.features[j] == features[rec.indices[j]] && rec.labels[j] == labels[rec.indices[j]])
      && (forall j, k :: 0 <= j < k < |rec.indices| ==> rec.indices[j] < rec.indices[k])
      && (forall i :: 0 <= i < |ids| && ids[i] == p ==> i in rec.indices)
  {
    var m := OrganizeByPatient(features, labels, ids);
    forall p | p in m
      ensures |m[p].indices| > 0
    {
      PositionsExact(ids, p);
      var i :| 0 <= i < |ids| && ids[i] == p;
      assert i in m[p].indices;
    }
    forall p | p in m
      ensures forall j, k :: 0 <= j < k < |m[p].indices| ==> m[p].indices[j] < m[p].indices[k]
      ensures forall i :: 0 <= i < |ids| && ids[i] == p ==> i in m[p].indices
    {
      PositionsExact(ids, p);
    }
  }

  /** `list(set(ids))`: each patient once.  Python's set order is unspecified; the
      model fixes first-appearance order. */
  function DistinctIds(ids: seq<string>): (r: seq<string>)
    ensures forall j :: 0 <= j < |r| ==> r[j] in IdSet(ids)
  {
    if |ids| == 0 then []
    else
      var prefix := DistinctIds(ids[..|ids| - 1]);
      assert IdSet(ids[..|ids| - 1]) <= IdSet(ids) by {
        forall x | x in IdSet(ids[..|ids| - 1]) ensures x in IdSet(ids) {
          var i :| 0 <= i < |ids| - 1 && ids[..|ids| - 1][i] == x;
          assert ids[i] == x;
        }
      }
      if ids[|ids| - 1] in prefix then prefix else prefix + [ids[|ids| - 1]]
  }

  lemma {:induction false} DistinctIdsExact(ids: seq<string>)
    ensures forall p :: p in DistinctIds(ids) <==> p in IdSet(ids)
    ensures forall j, k :: 0 <= j < k < |DistinctIds(ids)| ==> DistinctIds(ids)[j] != DistinctIds(ids)[k]
  {
    if |ids| > 0 {
      var init := ids[..|ids| - 1];
      DistinctIdsExact(init);
      forall p | p in IdSet(ids) ensures p in DistinctIds(ids) {
        var i :| 0 <= i < |ids| && ids[i] == p;
        if i < |ids| - 1 {
          assert init[i] == p;
          assert p in IdSet(init);
        }
      }
    }
  }

  // ---------------------------------------------------------------- the reward of a diagnosis

  /** The 0/1 prediction a confidence stands for. */
  function PredictionOf(confidence: real): int
  {
    if confidence > 0.5 then 1 else 0
  }

  /** 1.0 when the truth equals the prediction (numpy compares the truth with the boolean). */
  function Correctness(truth: real, confidence: real): real
  {
    BoolToReal(truth == PredictionOf(confidence) as real)
  }

  /** Correctness, less half the squared calibration gap, plus a 0.1 exploration bonus,
      floored at -0.5. */
  function DiagnoseReward(truth: real, confidence: real): real
  {
    var c := Correctness(truth, confidence);
    Max(c - 0.5 * ((confidence - c) * (confidence - c)) + 0.1, -0.5)
  }

  /** For a confidence in [0, 1] the floor never binds and the reward lies in [-0.4, 1.1]. */
  lemma DiagnoseRewardBounds(truth: real, confidence: real)
    requires 0.0 <= confidence <= 1.0
    ensures -0.4 <= DiagnoseReward(truth, confidence) <= 1.1
    ensures DiagnoseReward(truth, confidence)
         == Correctness(truth, confidence) + 0.1
            - 0.5 * ((confidence - Correctness(truth, confidence)) * (confidence - Correctness(truth, confidence)))
  {
    SquareWithinUnit(confidence - Correctness(truth, confidence));
  }

  /** Over the confidences a DIAGNOSE step can use, a correct diagnosis always earns more
      than an incorrect one: at least 0.855 against at most 0.055. */
  lemma CorrectDiagnosisEarnsMore(confidence: real, right: real, wrong: real)
    requires 0.3 <= confidence <= 0.9
    requires Correctness(right, confidence) == 1.0 && Correctness(wrong, confidence) == 0.0
    ensures DiagnoseReward(right, confidence) >= 0.855
    ensures DiagnoseReward(wrong, confidence) <= 0.055
  {
    var e := 1.0 - confidence;
    assert e * e <= 0.7 * e;
    assert (confidence - 1.0) * (confidence - 1.0) == e * e;
    assert confidence * confidence >= 0.3 * confidence;
    assert (confidence - 0.0) * (confidence - 0.0) == confidence * confidence;
  }

  // ---------------------------------------------------------------- severity from predictions

  /** The score assigned to an events-per-hour rate. */
  function AhiBand(ahi: real): real
  {
    if ahi < 5.0 then 0.1
    else if ahi < 15.0 then 0.2
    else if ahi < 25.0 then 0.4
    else if ahi < 35.0 then 0.6
    else if ahi < 50.0 then 0.8
    else 1.0
  }

  lemma AhiBandMonotone(a: real, b: real)
    requires a <= b
    ensures 0.1 <= AhiBand(a) <= AhiBand(b) <= 1.0
  {
  }

  function PredictionSum(preds: seq<int>): int
  {
    if |preds| == 0 then 0 else PredictionSum(preds[..|preds| - 1]) + preds[|preds| - 1]
  }

  /** Predicted events per hour over `n` ten-second segments. */
  function EventsPerHour(events: int, n: nat): real
    requires n > 0
  {
    (events as real) / ((n as real) * SegmentSeconds / 3600.0)
  }

  /** `_calculate_severity_score`: 0 without predictions or without predicted events,
      otherwise the band of the predicted events per hour. */
  function SeverityScore(preds: seq<int>): real
  {
    if |preds| == 0 then 0.0
    else if PredictionSum(preds) == 0 then 0.0
    else AhiBand(EventsPerHour(PredictionSum(preds), |preds|))
  }

  predicate Binary(preds: seq<int>)
  {
    forall i :: 0 <= i < |preds| ==> preds[i] == 0 || preds[i] == 1
  }

  lemma {:induction false} PredictionSumBinary(preds: seq<int>)
    requires Binary(preds)
    ensures 0 <= PredictionSum(preds) <= |preds|
    ensures PredictionSum(preds) == 0 <==> forall i :: 0 <= i < |preds| ==> preds[i] == 0
  {
    if |preds| > 0 {
      PredictionSumBinary(preds[..|preds| - 1]);
      assert forall i :: 0 <= i < |preds| - 1 ==> preds[..|preds| - 1][i] == preds[i];
    }
  }

  lemma EventsPerHourMonotone(a: int, b: int, n: nat)
    requires n > 0 && a <= b
    ensures EventsPerHour(a, n) <= EventsPerHour(b, n)
  {
    DivMonotone(a as real, b as real, (n as real) * SegmentSeconds / 3600.0);
  }

  /** The severity is 0 exactly when no apnea was predicted, and otherwise lies in
      [0.1, 1.0]; more predicted events over the same number of segments never
      lower it. */
  lemma SeverityScoreMeaning(preds: seq<int>, more: seq<int>)
    requires Binary(preds) && Binary(more) && |more| == |preds|
    requires PredictionSum(preds) <= PredictionSum(more)
    ensures SeverityScore(preds) == 0.0 <==> forall i :: 0 <= i < |preds| ==> preds[i] == 0
    ensures SeverityScore(preds) != 0.0 ==> 0.1 <= SeverityScore(preds) <= 1.0
    ensures SeverityScore(preds) <= SeverityScore(more)
  {
    PredictionSumBinary(preds);
    PredictionSumBinary(more);
    if |preds| > 0 && PredictionSum(preds) > 0 {
      EventsPerHourMonotone(PredictionSum(preds), PredictionSum(more), |preds|);
      AhiBandMonotone(EventsPerHour(PredictionSum(preds), |preds|), EventsPerHour(PredictionSum(more), |preds|));
    }
  }

  // ---------------------------------------------------------------- episode metrics

  /** Number of positions where the prediction equals the truth. */
  function MatchCount(preds: seq<int>, labels: seq<real>): nat
    requires |preds| == |labels|
  {
    if |preds| == 0 then 0
    else MatchCount(preds[..|preds| - 1], labels[..|labels| - 1])
         + (if preds[|preds| - 1] as real == labels[|labels| - 1] then 1 else 0)
  }

  /** `np.mean(predictions == true_labels)`. */
  function Accuracy(preds: seq<int>, labels: seq<real>): real
    requires |preds| == |labels| > 0
  {
    MatchCount(preds, labels) as real / |preds| as real
  }

  /** The predicted apnea events, in prediction order. */
  function ApneaEvents(preds: seq<int>, confs: seq<real>, ts: seq<real>): seq<ApneaEventDetail>
    requires |preds| == |confs| == |ts|
  {
    if |preds| == 0 then []
    else
      var k := |preds| - 1;
      ApneaEvents(preds[..k], confs[..k], ts[..k])
      + (if preds[k] == 1 then [ApneaEventDetail(ts[k], confs[k], k)] else [])
  }

  /** The metrics record of a non-empty episode, with predictions compared against
      `trueLabels`. */
  function MetricsOf(patient: string, preds: seq<int>, confs: seq<real>, ts: seq<real>, trueLabels: seq<real>): EpisodeMetrics
    requires |preds| == |confs| == |ts| == |trueLabels| > 0
  {
    var n := |preds|;
    var events := PredictionSum(preds);
    EpisodeMetrics(
      patient, Accuracy(preds, trueLabels), Calibration.Ece(confs, trueLabels, 10), Mean(confs),
      n, events, SeverityScore(preds), EventsPerHour(events, n),
      ApneaEvents(preds, confs, ts), (n as real) * SegmentSeconds / 60.0, EventsPerHour(events, n))
  }

  lemma {:induction false} MatchCountAtMost(preds: seq<int>, labels: seq<real>)
    requires |preds| == |labels|
    ensures MatchCount(preds, labels) <= |preds|
  {
    if |preds| > 0 {
      MatchCountAtMost(preds[..|preds| - 1], labels[..|labels| - 1]);
    }
  }

  lemma {:induction false} ApneaEventsExact(preds: seq<int>, confs: seq<real>, ts: seq<real>)
    requires |preds| == |confs| == |ts|
    requires Binary(preds)
    ensures |ApneaEvents(preds, confs, ts)| == PredictionSum(preds)
    ensures forall e :: e in ApneaEvents(preds, confs, ts) ==>
      e.step < |preds| && preds[e.step] == 1 && e.timestamp == ts[e.step] && e.confidence == confs[e.step]
    ensures var events := ApneaEvents(preds, confs, ts);
      forall i, j :: 0 <= i < j < |events| ==> events[i].step < events[j].step
    ensures var events := ApneaEvents(preds, confs, ts);
      forall k :: 0 <= k < |preds| && preds[k] == 1 ==> exists i :: 0 <= i < |events| && events[i].step == k
  {
    if |preds| > 0 {
      var k := |preds| - 1;
      var prefix := ApneaEvents(preds[..k], confs[..k], ts[..k]);
      ApneaEventsExact(preds[..k], confs[..k], ts[..k]);
      var events := ApneaEvents(preds, confs, ts);
      assert events[..|prefix|] == prefix;
      forall i | 0 <= i < |prefix| ensures events[i].step < k {
        assert prefix[i] in prefix;
      }
      forall s | 0 <= s < |preds| && preds[s] == 1
        ensures exists i :: 0 <= i < |events| && events[i].step == s
      {
        if s == k {
          assert events[|prefix|].step == k;
        } else {
          assert preds[..k][s] == 1;
          var i :| 0 <= i < |prefix| && prefix[i].step == s;
          assert events[i].step == s;
        }
      }
    }
  }

  lemma AccuracyWithinUnit(preds: seq<int>, labels: seq<real>)
    requires |preds| == |labels| > 0
    ensures 0.0 <= Accuracy(preds, labels) <= 1.0
  {
    MatchCountAtMost(preds, labels);
    RatioWithinUnit(MatchCount(preds, labels) as real, |preds| as real);
  }

  /** Every field of the metrics record means what its name says: accuracy, calibration
      error, mean confidence and severity lie in [0, 1]; the event list holds one entry
      per predicted apnea, each pointing at a prediction of 1 with its own timestamp and
      confidence. */
  lemma MetricsMeaning(patient: string, preds: seq<int>, confs: seq<real>, ts: seq<real>, trueLabels: seq<real>)
    requires |preds| == |confs| == |ts| == |trueLabels| > 0
    requires Binary(preds)
    requires forall i :: 0 <= i < |trueLabels| ==> 0.0 <= trueLabels[i] <= 1.0
    requires forall i :: 0 <= i < |confs| ==> 0.0 <= confs[i] <= 1.0
    ensures 0.0 <= MetricsOf(patient, preds, confs, ts, trueLabels).accuracy <= 1.0
    ensures 0.0 <= MetricsOf(patient, preds, confs, ts, trueLabels).ece <= 1.0
    ensures 0.0 <= MetricsOf(patient, preds, confs, ts, trueLabels).meanConfidence <= 1.0
    ensures 0.0 <= MetricsOf(patient, preds, confs, ts, trueLabels).severityScore <= 1.0
    ensures MetricsOf(patient, preds, confs, ts, trueLabels).nApneaEvents
         == |MetricsOf(patient, preds, confs, ts, trueLabels).apneaEventDetails| <= |preds|
    ensures forall e :: e in MetricsOf(patient, preds, confs, ts, trueLabels).apneaEventDetails ==>
      e.step < |preds| && preds[e.step] == 1 && e.timestamp == ts[e.step] && e.confidence == confs[e.step]
  {
    AccuracyWithinUnit(preds, trueLabels);
    Calibration.EceBounded(confs, trueLabels, 10);
    MeanBounds(confs, 0.0, 1.0);
    SeverityScoreMeaning(preds, preds);
    PredictionSumBinary(preds);
    ApneaEventsExact(preds, confs, ts);
  }

  function CorrectnessOf(labels: seq<real>, confs: seq<real>): seq<real>
    requires |labels| == |confs|
  {
    seq(|labels|, i requires 0 <= i < |labels| => Correctness(labels[i], confs[i]))
  }

  /** When each prediction is the one its confidence stands for, the accuracy is the
      mean of the per-step correctness the DIAGNOSE steps recorded. */
  lemma {:induction false} AccuracyIsMeanCorrectness(preds: seq<int>, confs: seq<real>, labels: seq<real>)
    requires |preds| == |confs| == |labels|
    requires forall i :: 0 <= i < |preds| ==> preds[i] == PredictionOf(confs[i])
    ensures MatchCount(preds, labels) as real == Sum(CorrectnessOf(labels, confs))
  {
    if |preds| > 0 {
      var k := |preds| - 1;
      AccuracyIsMeanCorrectness(preds[..k], confs[..k], labels[..k]);
      assert CorrectnessOf(labels, confs)[..k] == CorrectnessOf(labels[..k], confs[..k]);
    }
  }

  // ---------------------------------------------------------------- the episode records

  /** One recorded DIAGNOSE step agrees with the segment `step` it diagnosed, whose label is `truth`. */
  ghost predicate EntryConsistent(truth: real, step: nat, pred: int, conf: real, reward: real, ts: real, detail: EventDetail)
  {
    0.3 <= conf <= 0.9
    && pred == PredictionOf(conf)
    && ts == step as real * SegmentSeconds
    && reward == DiagnoseReward(truth, conf)
    && detail == EventDetail(ts, pred, conf, truth, Correctness(truth, conf), reward)
  }

  /** The five episode lists agree entry by entry with the diagnosed segments `steps`,
      which strictly increase and lie below the cursor `cursor`; there are never more
      entries than the cursor or the patient's segments. */
  ghost predicate RecordsConsistent(labels: seq<real>, preds: seq<int>, confs: seq<real>, rewards: seq<real>,
                                    ts: seq<real>, details: seq<EventDetail>, steps: seq<nat>, cursor: nat)
  {
    |preds| == |confs| == |rewards| == |ts| == |details| == |steps|
    && |steps| <= cursor && |steps| <= |labels|
    && (forall i :: 0 <= i < |steps| ==> steps[i] < cursor && steps[i] < |labels|)
    && (forall j, k :: 0 <= j < k < |steps| ==> steps[j] < steps[k])
    && (forall i :: 0 <= i < |steps| ==>
          EntryConsistent(labels[steps[i]], steps[i], preds[i], confs[i], rewards[i], ts[i], details[i]))
  }

  /** Diagnosing the segment under the cursor and advancing keeps the records consistent. */
  lemma RecordsAppend(labels: seq<real>, preds: seq<int>, confs: seq<real>, rewards: seq<real>,
                      ts: seq<real>, details: seq<EventDetail>, steps: seq<nat>, cursor: nat, conf: real)
    requires RecordsConsistent(labels, preds, confs, rewards, ts, details, steps, cursor)
    requires cursor < |labels| && 0.3 <= conf <= 0.9
    ensures var truth := labels[cursor];
      var t := cursor as real * SegmentSeconds;
      var r := DiagnoseReward(truth, conf);
      RecordsConsistent(labels, preds + [PredictionOf(conf)], confs + [conf], rewards + [r], ts + [t],
        details + [EventDetail(t, PredictionOf(conf), conf, truth, Correctness(truth, conf), r)],
        steps + [cursor], cursor + 1)
  {
  }

  /** Advancing the cursor without a diagnosis keeps the records consistent. */
  lemma RecordsAdvance(labels: seq<real>, preds: seq<int>, confs: seq<real>, rewards: seq<real>,
                       ts: seq<real>, details: seq<EventDetail>, steps: seq<nat>, cursor: nat, later: nat)
    requires RecordsConsistent(labels, preds, confs, rewards, ts, details, steps, cursor)
    requires cursor <= later
    ensures RecordsConsistent(labels, preds, confs, rewards, ts, details, steps, later)
  {
  }

  /** What the consistent records say entry by entry. */
  lemma RecordsFacts(labels: seq<real>, preds: seq<int>, confs: seq<real>, rewards: seq<real>,
                     ts: seq<real>, details: seq<EventDetail>, steps: seq<nat>, cursor: nat)
    requires RecordsConsistent(labels, preds, confs, rewards, ts, details, steps, cursor)
    ensures Binary(preds)
    ensures forall i :: 0 <= i < |confs| ==> 0.3 <= confs[i] <= 0.9 && preds[i] == PredictionOf(confs[i])
    ensures forall i :: 0 <= i < |details| ==>
      details[i].trueLabel == labels[steps[i]] && details[i].correctness == Correctness(details[i].trueLabel, confs[i])
  {
    forall i | 0 <= i < |steps|
      ensures EntryConsistent(labels[steps[i]], steps[i], preds[i], confs[i], rewards[i], ts[i], details[i])
    {
    }
  }

  // ---------------------------------------------------------------- the environment

  class ApneaDetectionEnv {
    const patientData: map<string, PatientSegments>
    const patientList: seq<string>
    const featureDim: nat
    const maxEpisodeLength: int

    var currentPatient: Option<string>
    var currentPatientIdx: nat
    var currentStep: nat
    var predictions: seq<int>
    var confidences: seq<real>
    var rewards: seq<real>
    var timestamps: seq<real>
    var eventDetails: seq<EventDetail>
    /** The segment each recorded DIAGNOSE step diagnosed. */
    ghost var diagnosedSteps: seq<nat>

    /** Segments of the current patient. */
    function SegmentCount(): nat
      reads this
      requires currentPatient.Some? && currentPatient.value in patientData
    {
      |patientData[currentPatient.value].features|
    }

    function CurrentLabels(): seq<real>
      reads this
      requires currentPatient.Some? && currentPatient.value in patientData
    {
      patientData[currentPatient.value].labels
    }

    /** The per-patient table: every patient has as many labels as segments, at least
        one, every row has `featureDim` entries, and `patientList` names each patient. */
    ghost predicate DataValid()
      reads this
    {
      (forall p :: p in patientData ==>
         |patientData[p].features| == |patientData[p].labels| > 0
         && forall j :: 0 <= j < |patientData[p].features| ==> |patientData[p].features[j]| == featureDim)
      && (forall p :: p in patientList <==> p in patientData)
    }

    ghost predicate Valid()
      reads this
    {
      DataValid()
      && (currentPatient.None? ==>
            currentStep == 0 && predictions == [] && confidences == [] && rewards == []
            && timestamps == [] && eventDetails == [] && diagnosedSteps == [])
      && (currentPatient.Some? ==>
            currentPatient.value in patientData
            && RecordsConsistent(CurrentLabels(), predictions, confidences, rewards, timestamps,
                                 eventDetails, diagnosedSteps, currentStep))
    }

    /** Every label of every patient is 0 or 1, as the data loader produces them. */
    predicate LabelsBinary()
      reads this
    {
      forall p :: p in patientData ==>
        forall j :: 0 <= j < |patientData[p].labels| ==> patientData[p].labels[j] == 0.0 || patientData[p].labels[j] == 1.0
    }

    /** The rows of `features` are tagged with `ids`; all rows have `dim` columns. */
    constructor (features: seq<seq<real>>, labels: seq<real>, ids: seq<string>, dim: nat, maxLength: int)
      requires |features| == |ids| && |labels| == |ids|
      requires forall j :: 0 <= j < |features| ==> |features[j]| == dim
      ensures Valid()
      ensures patientData == OrganizeByPatient(features, labels, ids)
      ensures patientList == DistinctIds(ids)
      ensures featureDim == dim && maxEpisodeLength == maxLength
      ensures currentPatient.None? && currentStep == 0
      ensures predictions == [] && confidences == [] && rewards == [] && timestamps == [] && eventDetails == []
    {
      patientData := OrganizeByPatient(features, labels, ids);
      patientList := DistinctIds(ids);
      featureDim := dim;
      maxEpisodeLength := maxLength;
      currentPatient := None;
      currentPatientIdx := 0;
      currentStep := 0;
      predictions, confidences, rewards, timestamps, eventDetails := [], [], [], [], [];
      diagnosedSteps := [];
      new;
      OrganizeByPatientExact(features, labels, ids);
      DistinctIdsExact(ids);
    }

    /** `_get_observation`: the current segment's features, zeros once past the last one. */
    function Observation(): (obs: seq<real>)
      reads this
      requires Valid() && currentPatient.Some?
      ensures |obs| == featureDim
      ensures currentStep < SegmentCount() ==> obs == patientData[currentPatient.value].features[currentStep]
      ensures currentStep >= SegmentCount() ==> forall j :: 0 <= j < |obs| ==> obs[j] == 0.0
    {
      if currentStep < SegmentCount() then patientData[currentPatient.value].features[currentStep]
      else seq(featureDim, _ => 0.0)
    }

    /** Starts an episode on `patientList[choice]`; returns the first observation and the
        patient's segment count.  With no patient the draw `randint(0, 0)` raises
        ValueError before anything changes. */
    method Reset(choice: nat) returns (r: Result<(seq<real>, nat)>)
      requires Valid()
      requires |patientList| > 0 ==> choice < |patientList|
      modifies this
      ensures Valid()
      ensures |patientList| == 0 ==> r.Err? && r.error.ValueError? && unchanged(this)
      ensures |patientList| > 0 ==>
        r.Ok? &&
        currentPatient == Some(patientList[choice]) && currentPatientIdx == choice &&
        currentStep == 0 &&
        predictions == [] && confidences == [] && rewards == [] && timestamps == [] && eventDetails == [] &&
        r.value.1 == SegmentCount() > 0 &&
        r.value.0 == patientData[patientList[choice]].features[0]
    {
      if |patientList| == 0 {
        return Err(ValueError("low >= high"));
      }
      currentPatientIdx := choice;
      currentPatient := Some(patientList[choice]);
      currentStep := 0;
      predictions, confidences, rewards, timestamps, eventDetails := [], [], [], [], [];
      diagnosedSteps := [];
      var obs := Observation();
      r := Ok((obs, SegmentCount()));
    }

    /** The DIAGNOSE branch for a segment under the cursor: score it, record it, advance. */
    method DiagnoseCurrent(confidence: real) returns (reward: real)
      requires Valid() && currentPatient.Some? && currentStep < SegmentCount()
      requires 0.3 <= confidence <= 0.9
      modifies this
      ensures Valid()
      ensures currentPatient == old(currentPatient) && currentStep == old(currentStep) + 1
      ensures var truth := CurrentLabels()[old(currentStep)];
        var ts := old(currentStep) as real * SegmentSeconds;
        reward == DiagnoseReward(truth, confidence)
        && predictions == old(predictions) + [PredictionOf(confidence)]
        && confidences == old(confidences) + [confidence]
        && rewards == old(rewards) + [reward]
        && timestamps == old(timestamps) + [ts]
        && eventDetails == old(eventDetails)
             + [EventDetail(ts, PredictionOf(confidence), confidence, truth, Correctness(truth, confidence), reward)]
    {
      var truth := CurrentLabels()[currentStep];
      var correctness := Correctness(truth, confidence);
      reward := correctness - 0.5 * ((confidence - correctness) * (confidence - correctness)) + 0.1;
      reward := Max(reward, -0.5);
      var prediction := PredictionOf(confidence);
      var timestamp := currentStep as real * SegmentSeconds;
      RecordsAppend(CurrentLabels(), predictions, confidences, rewards, timestamps, eventDetails,
                    diagnosedSteps, currentStep, confidence);
      predictions := predictions + [prediction];
      confidences := confidences + [confidence];
      rewards := rewards + [reward];
      timestamps := timestamps + [timestamp];
      eventDetails := eventDetails + [EventDetail(timestamp, prediction, confidence, truth, correctness, reward)];
      diagnosedSteps := diagnosedSteps + [currentStep];
      currentStep := currentStep + 1;
    }

    /** One step of the episode.  `confidence` is the confidence a DIAGNOSE step uses. */
    method Step(action: int, confidence: real) returns (obs: seq<real>, reward: real, terminated: bool, truncated: bool)
      requires Valid() && currentPatient.Some?
      requires action == Diagnose ==> 0.3 <= confidence <= 0.9
      modifies this
      ensures Valid()
      ensures currentPatient == old(currentPatient)
      ensures action == Wait ==> currentStep == old(currentStep) + 1
      ensures action == Diagnose && old(currentStep) < SegmentCount() ==>
        currentStep == old(currentStep) + 1
        && (var truth := CurrentLabels()[old(currentStep)];
            var ts := old(currentStep) as real * SegmentSeconds;
            reward == DiagnoseReward(truth, confidence)
            && predictions == old(predictions) + [PredictionOf(confidence)]
            && confidences == old(confidences) + [confidence]
            && rewards == old(rewards) + [reward]
            && timestamps == old(timestamps) + [ts]
            && eventDetails == old(eventDetails)
                 + [EventDetail(ts, PredictionOf(confidence), confidence, truth, Correctness(truth, confidence), reward)])
      ensures !(action == Diagnose && old(currentStep) < SegmentCount()) ==>
        predictions == old(predictions) && confidences == old(confidences) && rewards == old(rewards)
        && timestamps == old(timestamps) && eventDetails == old(eventDetails)
        && reward == (if action == Escalate then -0.1 else 0.0)
        && (action != Wait ==> currentStep == old(currentStep))
      ensures terminated == (action == Escalate || currentStep >= SegmentCount())
      ensures truncated == (currentStep < SegmentCount() && currentStep >= maxEpisodeLength)
      ensures obs == Observation()
    {
      reward := 0.0;
      terminated := false;
      truncated := false;
      if action == Wait {
        RecordsAdvance(CurrentLabels(), predictions, confidences, rewards, timestamps, eventDetails,
                       diagnosedSteps, currentStep, currentStep + 1);
        currentStep := currentStep + 1;
        if currentStep >= SegmentCount() {
          terminated := true;
        } else if currentStep >= maxEpisodeLength {
          truncated := true;
        }
      } else if action == Diagnose {
        if currentStep < SegmentCount() {
          reward := DiagnoseCurrent(confidence);
        }
      } else if action == Escalate {
        reward := -0.1;
        terminated := true;
      }
      if currentStep >= SegmentCount() {
        terminated := true;
      } else if currentStep >= maxEpisodeLength {
        truncated := true;
      }
      obs := Observation();
    }

    /** The labels the source compares the predictions with: the patient's first n labels. */
    function LeadingLabels(): (r: seq<real>)
      reads this
      requires Valid() && currentPatient.Some?
      ensures |r| == |predictions|
    {
      CurrentLabels()[..|predictions|]
    }

    /** The labels of the segments that were actually diagnosed. */
    function DiagnosedLabels(): (r: seq<real>)
      reads this
      requires Valid()
      ensures |r| == |predictions|
    {
      var ds := eventDetails;
      seq(|ds|, i requires 0 <= i < |ds| => ds[i].trueLabel)
    }

    /** The correctness each DIAGNOSE step recorded. */
    function RecordedCorrectness(): (r: seq<real>)
      reads this
      requires Valid()
      ensures |r| == |predictions|
    {
      var ds := eventDetails;
      seq(|ds|, i requires 0 <= i < |ds| => ds[i].correctness)
    }

    /** Collects the predicted apnea events, one pass over the predictions. */
    method CollectApneaEvents() returns (events: seq<ApneaEventDetail>)
      requires Valid()
      ensures events == ApneaEvents(predictions, confidences, timestamps)
    {
      events := [];
      var i := 0;
      while i < |predictions|
        invariant 0 <= i <= |predictions|
        invariant events == ApneaEvents(predictions[..i], confidences[..i], timestamps[..i])
      {
        assert predictions[..i + 1][..i] == predictions[..i];
        assert confidences[..i + 1][..i] == confidences[..i];
        assert timestamps[..i + 1][..i] == timestamps[..i];
        if predictions[i] == 1 {
          events := events + [ApneaEventDetail(timestamps[i], confidences[i], i)];
        }
        i := i + 1;
      }
      assert predictions[..i] == predictions && confidences[..i] == confidences && timestamps[..i] == timestamps;
    }

    /** Metrics of the episode so far against the given labels (one per prediction). */
    method MetricsAgainst(trueLabels: seq<real>) returns (m: Option<EpisodeMetrics>)
      requires Valid() && currentPatient.Some?
      requires |trueLabels| == |predictions|
      ensures m.None? <==> predictions == []
      ensures m.Some? ==> m.value == MetricsOf(currentPatient.value, predictions, confidences, timestamps, trueLabels)
    {
      if predictions == [] {
        return None;
      }
      var n := |predictions|;
      var gaps := Calibration.BinnedGapTotal(confidences, trueLabels, 10);
      var events := CollectApneaEvents();
      var sum := PredictionSum(predictions);
      m := Some(EpisodeMetrics(
        currentPatient.value, Accuracy(predictions, trueLabels), gaps / (n as real), Mean(confidences),
        n, sum, SeverityScore(predictions), EventsPerHour(sum, n),
        events, (n as real) * SegmentSeconds / 60.0, EventsPerHour(sum, n)));
    }

    lemma LabelsWithinUnit(labels: seq<real>)
      requires Valid() && currentPatient.Some? && LabelsBinary()
      requires forall i :: 0 <= i < |labels| ==> labels[i] in CurrentLabels()
      ensures forall i :: 0 <= i < |labels| ==> 0.0 <= labels[i] <= 1.0
    {
    }

    /** `get_episode_metrics` as written: nothing before the first diagnosis, then the
        metrics with the predictions compared against the patient's first n labels.  The
        source's guard for running out of labels never fires: there are never more
        predictions than segments. */
    method GetEpisodeMetrics() returns (m: Option<EpisodeMetrics>)
      requires Valid()
      ensures m.None? <==> predictions == []
      ensures m.Some? ==> currentPatient.Some? && |predictions| <= |CurrentLabels()|
      ensures m.Some? ==> m.value == MetricsOf(currentPatient.value, predictions, confidences, timestamps, LeadingLabels())
      ensures m.Some? && LabelsBinary() ==> 0.0 <= m.value.ece <= 1.0 && 0.0 <= m.value.accuracy <= 1.0
    {
      if predictions == [] {
        return None;
      }
      m := MetricsAgainst(LeadingLabels());
      if LabelsBinary() {
        RecordsFacts(CurrentLabels(), predictions, confidences, rewards, timestamps, eventDetails,
                     diagnosedSteps, currentStep);
        LabelsWithinUnit(LeadingLabels());
        MetricsMeaning(currentPatient.value, predictions, confidences, timestamps, LeadingLabels());
      }
    }

    /** The corrected metrics: each prediction is compared with the label of the segment it
        diagnosed, so the accuracy is the mean correctness the steps recorded. */
    method GetEpisodeMetricsCorrected() returns (m: Option<EpisodeMetrics>)
      requires Valid()
      ensures m.None? <==> predictions == []
      ensures m.Some? ==> currentPatient.Some?
      ensures m.Some? ==> m.value == MetricsOf(currentPatient.value, predictions, confidences, timestamps, DiagnosedLabels())
      ensures m.Some? ==> m.value.accuracy == Mean(RecordedCorrectness())
      ensures m.Some? && LabelsBinary() ==> 0.0 <= m.value.ece <= 1.0 && 0.0 <= m.value.accuracy <= 1.0
    {
      if predictions == [] {
        return None;
      }
      m := MetricsAgainst(DiagnosedLabels());
      RecordsFacts(CurrentLabels(), predictions, confidences, rewards, timestamps, eventDetails,
                   diagnosedSteps, currentStep);
      AccuracyIsMeanCorrectness(predictions, confidences, DiagnosedLabels());
      assert CorrectnessOf(DiagnosedLabels(), confidences) == RecordedCorrectness();
      if LabelsBinary() {
        LabelsWithinUnit(DiagnosedLabels());
        MetricsMeaning(currentPatient.value, predictions, confidences, timestamps, DiagnosedLabels());
      }
    }
  }

  /** The table of a two-segment recording of one patient "p". */
  lemma TwoSegmentTable()
    ensures OrganizeByPatient([[0.0], [0.0]], [1.0, 0.0], ["p", "p"])
         == map["p" := PatientSegments([[0.0], [0.0]], [1.0, 0.0], [0, 1])]
    ensures DistinctIds(["p", "p"]) == ["p"]
  {
    var ids := ["p", "p"];
    assert ids[..1] == ["p"];
    assert ["p"][..0] == [];
    assert Positions(ids, "p") == [0, 1];
    assert IdSet(ids) == {"p"};
    var m := OrganizeByPatient([[0.0], [0.0]], [1.0, 0.0], ids);
    assert Select([[0.0], [0.0]], [0, 1]) == [[0.0], [0.0]];
    assert Select([1.0, 0.0], [0, 1]) == [1.0, 0.0];
    assert m.Keys == {"p"};
    assert m["p"] == PatientSegments([[0.0], [0.0]], [1.0, 0.0], [0, 1]);
  }

  lemma SingleDiagnosisAccuracy()
    ensures Accuracy([0], [1.0]) == 0.0 && Accuracy([0], [0.0]) == 1.0
  {
    assert [0][..0] == [];
    assert MatchCount([0], [1.0]) == 0;
    assert MatchCount([0], [0.0]) == 1;
  }

  /** A patient with labels [1, 0]: the agent waits over segment 0 and diagnoses segment 1
      with confidence 0.4, i.e. predicts 0 for a segment labelled 0.  The step records
      correctness 1, the metrics as written report accuracy 0 (they compare against label
      0 of the patient), and the corrected metrics report accuracy 1.  The two accuracies
      are the `accuracy` fields `GetEpisodeMetrics` and `GetEpisodeMetricsCorrected` return
      in this state. */
  method WaitThenDiagnoseScenario() returns (recorded: real, asWritten: real, corrected: real)
    ensures recorded == 1.0 && asWritten == 0.0 && corrected == 1.0
  {
    TwoSegmentTable();
    var env := new ApneaDetectionEnv([[0.0], [0.0]], [1.0, 0.0], ["p", "p"], 1, 100);
    var _ := env.Reset(0);
    assert env.CurrentLabels() == [1.0, 0.0];
    var _, _, _, _ := env.Step(Wait, 0.0);
    var _, _, _, _ := env.Step(Diagnose, 0.4);
    assert env.predictions == [0];
    recorded := env.eventDetails[0].correctness;
    // The accuracy field of the two metrics methods, which use these two label lists.
    var leading := env.LeadingLabels();
    var diagnosed := env.DiagnosedLabels();
    assert leading == [1.0];
    assert diagnosed == [0.0];
    SingleDiagnosisAccuracy();
    asWritten := Accuracy(env.predictions, leading);
    corrected := Accuracy(env.predictions, diagnosed);
  }
}
