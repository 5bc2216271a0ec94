/**
 * The rule parts of the model-2 demo (`layer2RLdiagnosis-model-2/demo.py`): the
 * calibration-inspired reward it tabulates and the severity table it prints.  The
 * reward formula is the detection environment's, and the recommendation the
 * custom-audio tester's, which the demo repeats word for word.
 */
module Demo {
  import opened Numeric
  import DetectionEnv
  import CustomAudio

  /** The reward never exceeds the correctness, and equals it for a confidence that
      matches it; for a correctness of 0 or 1 and a confidence in [0, 1] it lies in
      [-1, 1], rising with the confidence on a correct answer and falling on a wrong one. */
  lemma RewardMeaning(correctness: real, confidence: real, other: real)
    ensures DetectionEnv.CalibrationReward(correctness, confidence) <= correctness
    ensures confidence == correctness ==> DetectionEnv.CalibrationReward(correctness, confidence) == correctness
    ensures (correctness == 0.0 || correctness == 1.0) && 0.0 <= confidence <= 1.0 ==>
      -1.0 <= DetectionEnv.CalibrationReward(correctness, confidence) <= 1.0
    ensures correctness == 1.0 && confidence <= other <= 1.0 ==>
      DetectionEnv.CalibrationReward(1.0, confidence) <= DetectionEnv.CalibrationReward(1.0, other)
    ensures correctness == 0.0 && 0.0 <= confidence <= other ==>
      DetectionEnv.CalibrationReward(0.0, other) <= DetectionEnv.CalibrationReward(0.0, confidence)
  {
    var d := confidence - correctness;
    assert DetectionEnv.CalibrationReward(correctness, confidence) == correctness - d * d;
    assert d * d >= 0.0;
    if (correctness == 0.0 || correctness == 1.0) && 0.0 <= confidence <= 1.0 {
      SquareWithinUnit(d);
    }
    if correctness == 1.0 && confidence <= other <= 1.0 {
      assert (1.0 - other) * (1.0 - other) <= (1.0 - confidence) * (1.0 - confidence) by {
        SquaresOrdered(1.0 - other, 1.0 - confidence);
      }
    }
    if correctness == 0.0 && 0.0 <= confidence <= other {
      SquaresOrdered(confidence, other);
    }
  }

  /** Squaring keeps the order of non-negative numbers. */
  lemma SquaresOrdered(a: real, b: real)
    requires 0.0 <= a <= b
    ensures a * a <= b * b
  {
    assert a * a <= a * b;
    assert a * b <= b * b;
  }

  /** The five scenarios of `demo_reward_function` as (correctness, confidence). */
  const Scenarios: seq<(real, real)> := [(1.0, 0.9), (1.0, 0.5), (0.0, 0.1), (0.0, 0.9), (1.0, 1.0)]

  /** The rewards the demo prints for its scenarios. */
  function ScenarioRewards(): (r: seq<real>)
    ensures |r| == |Scenarios|
    ensures forall i :: 0 <= i < |r| ==> r[i] == DetectionEnv.CalibrationReward(Scenarios[i].0, Scenarios[i].1)
  {
    seq(|Scenarios|, i requires 0 <= i < |Scenarios| => DetectionEnv.CalibrationReward(Scenarios[i].0, Scenarios[i].1))
  }

  /** The demo's table: a confident correct answer earns 0.99, a hesitant one 0.75, a
      hesitant wrong one -0.01, a confident wrong one -0.81, and a perfect one 1. */
  lemma ScenarioRewardValues()
    ensures ScenarioRewards() == [0.99, 0.75, -0.01, -0.81, 1.0]
  {
    var r := ScenarioRewards();
    assert r[0] == 0.99 && r[1] == 0.75 && r[2] == -0.01 && r[3] == -0.81 && r[4] == 1.0;
  }

  /** The five sample scores of `demo_severity_assessment` with the level the demo
      labels them with. */
  const SeveritySamples: seq<(real, CustomAudio.SeverityLevel)> :=
    [(0.05, CustomAudio.VeryLow), (0.15, CustomAudio.Low), (0.35, CustomAudio.Moderate),
     (0.65, CustomAudio.High), (0.85, CustomAudio.VeryHigh)]

  /** Every sample score falls in the band it is labelled with, so the recommendation
      printed beside it is that band's advice, and the five pieces of advice differ. */
  lemma SeveritySamplesMatch()
    ensures forall i :: 0 <= i < |SeveritySamples| ==>
      CustomAudio.GetSeverityLevel(SeveritySamples[i].0) == SeveritySamples[i].1 &&
      CustomAudio.GetRecommendation(SeveritySamples[i].0) == CustomAudio.AdviceFor(SeveritySamples[i].1)
    ensures forall i, j :: 0 <= i < j < |SeveritySamples| ==>
      CustomAudio.GetRecommendation(SeveritySamples[i].0) != CustomAudio.GetRecommendation(SeveritySamples[j].0)
  {
  }
}
