/**
 * The comprehensive sleep-quality scorer of the environment-optimisation
 * layer (`layer3rl/sleep_quality_scorer.py`): three component scores (user
 * inputs, audio analysis, sleep events), an apnea health score, the weighted
 * overall score, recommendations, risk factors, a confidence level and the
 * score category.
 *
 * The overall score's random variation is a parameter in [-2, 2]; the
 * rounding of the reported values to one or two decimals is not modelled.
 */
module ComprehensiveScorer {
  import opened Wrappers
  import opened Numeric

  datatype UserInputs = UserInputs(
    hoursSlept: real,
    sleepRating: int,
    environmentQuality: int,
    environmentComfort: int,
    sleepQuality: string,
    stressLevel: string,
    exercise: string)

  datatype AudioAnalysis = AudioAnalysis(
    peakLevel: real,
    averageLevel: real,
    quietPeriods: real,
    noiseEvents: int,
    qualityScore: real,
    sleepEfficiency: real,
    deepSleepPercentage: real,
    remSleepPercentage: real,
    sleepLatency: real,
    wakeUps: int)

  datatype ApneaDiagnosis = ApneaDiagnosis(
    apneaEvents: int,
    apneaHypopneaIndex: real,
    oxygenDesaturation: real,
    snoringIntensity: real,
    breathingRegularity: real,
    riskLevel: string)

  datatype SleepEvents = SleepEvents(
    snoringIntensity: real,
    apneaEvents: int,
    coughingEpisodes: int,
    totalNegativeEvents: int)

  datatype SleepQualityScore = SleepQualityScore(
    overallScore: real,
    sleepEfficiencyScore: real,
    environmentalScore: real,
    healthScore: real,
    recommendations: seq<Advice>,
    riskFactors: seq<Risk>,
    confidence: real)

  const UserInputsWeight := 0.35
  const AudioAnalysisWeight := 0.35
  const SleepEventsWeight := 0.30

  /** `min(100, max(0, x))`. */
  function Clamp100(x: real): (r: real)
    ensures 0.0 <= r <= 100.0
    ensures 0.0 <= x <= 100.0 ==> r == x
  {
    Min(100.0, Max(0.0, x))
  }

  // ---------------------------------------------------------------- user inputs

  /** 30 points for 7 to 9 hours, 20 within 6 to 10, 10 within 5 to 11, else 5. */
  function DurationPoints(hours: real): real
  {
    if 7.0 <= hours <= 9.0 then 30.0
    else if 6.0 <= hours <= 10.0 then 20.0
    else if 5.0 <= hours <= 11.0 then 10.0
    else 5.0
  }

  /** The points never decrease on the way up to the 7-9 hour plateau and never
      increase after it; the full 30 points are earned exactly on the plateau. */
  lemma DurationPointsUnimodal(a: real, b: real)
    requires a <= b
    ensures b <= 7.0 ==> DurationPoints(a) <= DurationPoints(b)
    ensures 9.0 <= a ==> DurationPoints(b) <= DurationPoints(a)
    ensures DurationPoints(a) == 30.0 <==> 7.0 <= a <= 9.0
  {
  }

  /** The stress table; any other level is a missing key. */
  function StressPoints(level: string): Result<real>
  {
    if level == "low" then Ok(10.0)
    else if level == "medium" then Ok(7.0)
    else if level == "high" then Ok(3.0)
    else Err(KeyError(level))
  }

  function ExercisePoints(exercise: string): Result<real>
  {
    if exercise == "none" then Ok(2.0)
    else if exercise == "light" then Ok(4.0)
    else if exercise == "moderate" then Ok(5.0)
    else if exercise == "intense" then Ok(3.0)
    else Err(KeyError(exercise))
  }

  /** `calculate_user_input_score`; the stress level is looked up before the exercise. */
  function UserInputScore(u: UserInputs): Result<real>
  {
    match StressPoints(u.stressLevel)
    case Err(e) => Err(e)
    case Ok(stress) =>
      match ExercisePoints(u.exercise)
      case Err(e) => Err(e)
      case Ok(exercise) =>
        Ok(Clamp100(DurationPoints(u.hoursSlept)
                    + (u.sleepRating as real / 10.0) * 30.0
                    + (u.environmentQuality as real / 10.0) * 20.0
                    + (u.environmentComfort as real / 10.0) * 20.0
                    + stress + exercise))
  }

  /** The score exists exactly for a known stress level and exercise, naming the
      unknown one otherwise; it lies in [0, 100], and with non-negative ratings the
      lower clamp never binds. */
  lemma UserInputScoreMeaning(u: UserInputs)
    ensures UserInputScore(u).Ok? <==>
      u.stressLevel in {"low", "medium", "high"} && u.exercise in {"none", "light", "moderate", "intense"}
    ensures !(u.stressLevel in {"low", "medium", "high"}) ==> UserInputScore(u) == Err(KeyError(u.stressLevel))
    ensures u.stressLevel in {"low", "medium", "high"} && !(u.exercise in {"none", "light", "moderate", "intense"}) ==>
              UserInputScore(u) == Err(KeyError(u.exercise))
    ensures UserInputScore(u).Ok? ==> 0.0 <= UserInputScore(u).value <= 100.0
    ensures UserInputScore(u).Ok? && u.sleepRating >= 0 && u.environmentQuality >= 0 && u.environmentComfort >= 0 ==>
              UserInputScore(u).value >= 10.0
  {
  }

  // ---------------------------------------------------------------- audio analysis

  function LatencyPoints(latency: real): real
  {
    if latency <= 10.0 then 15.0 else if latency <= 20.0 then 10.0 else if latency <= 30.0 then 5.0 else 0.0
  }

  function WakeUpPoints(wakeUps: int): real
  {
    if wakeUps <= 1 then 10.0 else if wakeUps <= 3 then 7.0 else if wakeUps <= 5 then 4.0 else 0.0
  }

  /** `calculate_audio_analysis_score`. */
  function AudioScore(a: AudioAnalysis): real
  {
    Clamp100(a.sleepEfficiency * 30.0 + a.deepSleepPercentage * 25.0 + a.remSleepPercentage * 20.0
             + LatencyPoints(a.sleepLatency) + WakeUpPoints(a.wakeUps))
  }

  /** The audio score lies in [0, 100]; a longer latency or more wake-ups never raise
      it, and higher efficiency never lowers it. */
  lemma AudioScoreMonotone(a: AudioAnalysis, latency: real, wakeUps: int, efficiency: real)
    requires a.sleepLatency <= latency && a.wakeUps <= wakeUps && a.sleepEfficiency <= efficiency
    ensures 0.0 <= AudioScore(a) <= 100.0
    ensures AudioScore(a.(sleepLatency := latency)) <= AudioScore(a)
    ensures AudioScore(a.(wakeUps := wakeUps)) <= AudioScore(a)
    ensures AudioScore(a) <= AudioScore(a.(sleepEfficiency := efficiency))
  {
  }

  // ---------------------------------------------------------------- apnea health

  /** The deduction for a number of apnea events: 0, 10, 20, 30 or 40 points. */
  function ApneaEventPenalty(events: int): real
  {
    if events == 0 then 0.0
    else if events <= 5 then 10.0
    else if events <= 15 then 20.0
    else if events <= 30 then 30.0
    else 40.0
  }

  lemma ApneaEventPenaltyMonotone(a: int, b: int)
    requires 0 <= a <= b
    ensures 0.0 <= ApneaEventPenalty(a) <= ApneaEventPenalty(b) <= 40.0
  {
  }

  function AhiPenalty(ahi: real): real
  {
    if ahi < 5.0 then 0.0 else if ahi < 15.0 then 10.0 else if ahi < 30.0 then 20.0 else 30.0
  }

  function OxygenPenalty(oxygen: real): real
  {
    if oxygen > 95.0 then 0.0 else if oxygen > 90.0 then 10.0 else 20.0
  }

  /** `calculate_apnea_health_score`. */
  function ApneaHealthScore(d: ApneaDiagnosis): real
  {
    Clamp100(100.0 - ApneaEventPenalty(d.apneaEvents) - AhiPenalty(d.apneaHypopneaIndex)
             - OxygenPenalty(d.oxygenDesaturation) + d.breathingRegularity * 10.0)
  }

  /** The health score lies in [0, 100]; it never rises with more events or a higher
      AHI, and never falls with more oxygen or more regular breathing. */
  lemma ApneaHealthScoreMonotone(d: ApneaDiagnosis, e: ApneaDiagnosis)
    requires 0 <= d.apneaEvents <= e.apneaEvents
    requires d.apneaHypopneaIndex <= e.apneaHypopneaIndex
    requires e.oxygenDesaturation <= d.oxygenDesaturation
    requires e.breathingRegularity <= d.breathingRegularity
    ensures 0.0 <= ApneaHealthScore(e) <= ApneaHealthScore(d) <= 100.0
  {
    ApneaEventPenaltyMonotone(d.apneaEvents, e.apneaEvents);
  }

  // ---------------------------------------------------------------- sleep events

  function CoughPenalty(episodes: int): real
  {
    if episodes == 0 then 0.0 else if episodes <= 3 then 5.0 else if episodes <= 8 then 10.0 else 20.0
  }

  function NegativeEventsPenalty(total: int): real
  {
    if total <= 5 then 0.0 else if total <= 10 then 5.0 else 10.0
  }

  /** `calculate_sleep_events_score`: only the lower bound is clamped. */
  function SleepEventsScore(e: SleepEvents): real
  {
    Max(0.0, 100.0 - ApneaEventPenalty(e.apneaEvents) - e.snoringIntensity * 30.0
             - CoughPenalty(e.coughingEpisodes) - NegativeEventsPenalty(e.totalNegativeEvents))
  }

  /** A night without events scores 100; with non-negative counts, more of any event
      never raises the score, which is at least 0. */
  lemma SleepEventsScoreMonotone(e: SleepEvents, f: SleepEvents)
    requires 0 <= e.apneaEvents <= f.apneaEvents && 0 <= e.coughingEpisodes <= f.coughingEpisodes
    requires e.totalNegativeEvents <= f.totalNegativeEvents && e.snoringIntensity <= f.snoringIntensity
    ensures 0.0 <= SleepEventsScore(f) <= SleepEventsScore(e)
    ensures SleepEventsScore(SleepEvents(0.0, 0, 0, 0)) == 100.0
  {
    ApneaEventPenaltyMonotone(e.apneaEvents, f.apneaEvents);
  }

  /** The score stays at most 100 for non-negative snoring; a negative snoring
      intensity, which the upper bound is not clamped against, pushes it above 100. */
  lemma SleepEventsScoreUpperBound(e: SleepEvents)
    requires e.apneaEvents >= 0 && e.coughingEpisodes >= 0
    ensures e.snoringIntensity >= 0.0 ==> SleepEventsScore(e) <= 100.0
    ensures SleepEventsScore(SleepEvents(-1.0, 0, 0, 0)) == 130.0
  {
  }

  // ---------------------------------------------------------------- recommendations and risks

  /** The pieces of advice `generate_recommendations` can give. */
  datatype Advice =
    | IncreaseDuration | ReduceDuration | ReduceStress | AddExercise
    | AvoidIntenseExercise | ImproveHygiene | ReduceAwakenings | ApneaScreening
  {
    function Text(): string
    {
      match this
      case IncreaseDuration => "Increase sleep duration to 7-9 hours for optimal health"
      case ReduceDuration => "Consider reducing sleep duration to 7-9 hours"
      case ReduceStress => "Implement stress reduction techniques before bedtime"
      case AddExercise => "Add light exercise to improve sleep quality"
      case AvoidIntenseExercise => "Avoid intense exercise within 3 hours of bedtime"
      case ImproveHygiene => "Improve sleep hygiene to reduce sleep onset time"
      case ReduceAwakenings => "Optimize sleep environment to reduce nighttime awakenings"
      case ApneaScreening => "Consult healthcare provider about sleep apnea screening"
    }
  }

  /** The risk factors `identify_risk_factors` can name. */
  datatype Risk = SuboptimalDuration | HighStress | LowEfficiency | InsufficientDeepSleep | ElevatedApnea
  {
    function Text(): string
    {
      match this
      case SuboptimalDuration => "Suboptimal sleep duration"
      case HighStress => "High stress levels affecting sleep"
      case LowEfficiency => "Low sleep efficiency"
      case InsufficientDeepSleep => "Insufficient deep sleep"
      case ElevatedApnea => "Elevated apnea events"
    }
  }

  /** `[x]` when the condition holds, else nothing. */
  function When<T>(c: bool, x: T): seq<T>
  {
    if c then [x] else []
  }

  /** `generate_recommendations`, in the order the rules are checked. */
  function GenerateRecommendations(u: UserInputs, a: AudioAnalysis, e: SleepEvents): seq<Advice>
  {
    (if u.hoursSlept < 7.0 then [IncreaseDuration] else When(u.hoursSlept > 9.0, ReduceDuration))
    + When(u.stressLevel == "high", ReduceStress)
    + (if u.exercise == "none" then [AddExercise] else When(u.exercise == "intense", AvoidIntenseExercise))
    + When(a.sleepLatency > 20.0, ImproveHygiene)
    + When(a.wakeUps > 3, ReduceAwakenings)
    + When(e.apneaEvents > 15, ApneaScreening)
  }

  /** `identify_risk_factors`. */
  function IdentifyRiskFactors(u: UserInputs, a: AudioAnalysis, e: SleepEvents): seq<Risk>
  {
    When(u.hoursSlept < 6.0 || u.hoursSlept > 10.0, SuboptimalDuration)
    + When(u.stressLevel == "high", HighStress)
    + When(a.sleepEfficiency < 0.8, LowEfficiency)
    + When(a.deepSleepPercentage < 0.2, InsufficientDeepSleep)
    + When(e.apneaEvents > 15, ElevatedApnea)
  }

  /** The apnea screening advice appears exactly when there are more than 15 apnea
      events; at most six pieces of advice are given, none twice, and the two
      duration pieces never appear together. */
  lemma RecommendationsMeaning(u: UserInputs, a: AudioAnalysis, e: SleepEvents)
    ensures ApneaScreening in GenerateRecommendations(u, a, e) <==> e.apneaEvents > 15
    ensures |GenerateRecommendations(u, a, e)| <= 6
    ensures !(IncreaseDuration in GenerateRecommendations(u, a, e) && ReduceDuration in GenerateRecommendations(u, a, e))
    ensures ReduceStress in GenerateRecommendations(u, a, e) <==> u.stressLevel == "high"
  {
  }

  /** The elevated-apnea risk appears exactly when there are more than 15 apnea
      events, at most five risks are named, and a suboptimal duration always comes
      with advice on the duration. */
  lemma RiskFactorsMeaning(u: UserInputs, a: AudioAnalysis, e: SleepEvents)
    ensures ElevatedApnea in IdentifyRiskFactors(u, a, e) <==> e.apneaEvents > 15
    ensures |IdentifyRiskFactors(u, a, e)| <= 5
    ensures SuboptimalDuration in IdentifyRiskFactors(u, a, e) ==>
              IncreaseDuration in GenerateRecommendations(u, a, e) || ReduceDuration in GenerateRecommendations(u, a, e)
    ensures HighStress in IdentifyRiskFactors(u, a, e) <==> ReduceStress in GenerateRecommendations(u, a, e)
  {
    if u.hoursSlept < 6.0 || u.hoursSlept > 10.0 {
      assert GenerateRecommendations(u, a, e)[0] in {IncreaseDuration, ReduceDuration};
    }
  }

  // ---------------------------------------------------------------- confidence and overall

  /** `calculate_confidence`: the mean of input completeness, audio quality and
      diagnosis validity. */
  function CalculateConfidence(u: UserInputs, a: AudioAnalysis, e: SleepEvents): real
  {
    var complete := u.hoursSlept != 0.0 && u.sleepRating != 0 && u.environmentQuality != 0 && u.environmentComfort != 0;
    var inputs := if complete then 0.9 else 0.5;
    var audio := if a.qualityScore > 0.8 then 0.95 else if a.qualityScore > 0.6 then 0.8 else 0.6;
    var diagnosis := if e.apneaEvents >= 0 then 0.9 else 0.5;
    (inputs + audio + diagnosis) / 3.0
  }

  /** The confidence lies in [0.5, 0.95]; an input of zero caps it at the mean of
      0.5, 0.95 and 0.9. */
  lemma ConfidenceBounds(u: UserInputs, a: AudioAnalysis, e: SleepEvents)
    ensures 0.5 <= CalculateConfidence(u, a, e) <= 0.95
    ensures u.hoursSlept == 0.0 || u.sleepRating == 0 || u.environmentQuality == 0 || u.environmentComfort == 0 ==>
              CalculateConfidence(u, a, e) <= (0.5 + 0.95 + 0.9) / 3.0
  {
    var complete := u.hoursSlept != 0.0 && u.sleepRating != 0 && u.environmentQuality != 0 && u.environmentComfort != 0;
    var inputs := if complete then 0.9 else 0.5;
    var audio := if a.qualityScore > 0.8 then 0.95 else if a.qualityScore > 0.6 then 0.8 else 0.6;
    var diagnosis := if e.apneaEvents >= 0 then 0.9 else 0.5;
  }

  /** `score_sleep_quality`, with the random variation given. */
  function ScoreSleepQuality(u: UserInputs, a: AudioAnalysis, e: SleepEvents, variation: real): Result<SleepQualityScore>
    requires -2.0 <= variation <= 2.0
  {
    match UserInputScore(u)
    case Err(err) => Err(err)
    case Ok(userScore) =>
      var audioScore := AudioScore(a);
      var eventsScore := SleepEventsScore(e);
      var weighted := userScore * UserInputsWeight + audioScore * AudioAnalysisWeight + eventsScore * SleepEventsWeight;
      Ok(SleepQualityScore(
        Max(0.0, Min(100.0, weighted + variation)),
        audioScore, userScore, eventsScore,
        GenerateRecommendations(u, a, e),
        IdentifyRiskFactors(u, a, e),
        CalculateConfidence(u, a, e)))
  }

  /** The weights sum to 1.  Without variation and with component scores in [0, 100]
      (non-negative snoring and counts) the overall score is exactly the weighted sum,
      a value between the smallest and the largest component; with variation it stays
      in [0, 100] and within 2 points of the weighted sum. */
  lemma OverallScoreMeaning(u: UserInputs, a: AudioAnalysis, e: SleepEvents, variation: real)
    requires -2.0 <= variation <= 2.0
    requires UserInputScore(u).Ok?
    requires e.snoringIntensity >= 0.0 && e.apneaEvents >= 0 && e.coughingEpisodes >= 0
    ensures UserInputsWeight + AudioAnalysisWeight + SleepEventsWeight == 1.0
    ensures var s := ScoreSleepQuality(u, a, e, variation).value;
      var weighted := s.environmentalScore * UserInputsWeight + s.sleepEfficiencyScore * AudioAnalysisWeight
                      + s.healthScore * SleepEventsWeight;
      0.0 <= s.overallScore <= 100.0 &&
      Abs(s.overallScore - weighted) <= 2.0 &&
      (variation == 0.0 ==> s.overallScore == weighted) &&
      Min(s.environmentalScore, Min(s.sleepEfficiencyScore, s.healthScore)) <= weighted <=
      Max(s.environmentalScore, Max(s.sleepEfficiencyScore, s.healthScore))
  {
    UserInputScoreMeaning(u);
    SleepEventsScoreUpperBound(e);
  }

  // ---------------------------------------------------------------- category

  datatype ScoreCategory = Poor | Fair | Good | Excellent
  {
    function Name(): string
    {
      match this
      case Poor => "poor"
      case Fair => "fair"
      case Good => "good"
      case Excellent => "excellent"
    }

    function Rank(): nat
    {
      match this
      case Poor => 0
      case Fair => 1
      case Good => 2
      case Excellent => 3
    }
  }

  /** `get_score_category`: excellent from 90, good from 75, fair from 60. */
  function GetScoreCategory(score: real): ScoreCategory
  {
    if score >= 90.0 then Excellent else if score >= 75.0 then Good else if score >= 60.0 then Fair else Poor
  }

  lemma ScoreCategoryMonotone(a: real, b: real)
    requires a <= b
    ensures GetScoreCategory(a).Rank() <= GetScoreCategory(b).Rank()
    ensures GetScoreCategory(a) == Excellent <==> a >= 90.0
    ensures GetScoreCategory(a) == Poor <==> a < 60.0
  {
  }
}
