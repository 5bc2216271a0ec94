/**
 * The basic sleep-quality scorer (`sleep_quality_scorer.py`, whose text the
 * `layer1` copy repeats): a duration score, an events score, ratings scaled to
 * 0-100, their weighted overall score, a five-level category and up to four
 * recommendations.
 *
 * The scorer keeps its weights unchanged after construction, so it is a value.
 * Its weights are the four named ones; a weights dictionary with other keys is
 * not modelled.
 */
module SleepQualityScorer {
  import opened Wrappers
  import opened Numeric

  datatype SleepEventData = SleepEventData(snoreCount: int, apneaCount: int, coughCount: int)

  datatype SelfReportedData = SelfReportedData(sleepRating: int, environmentRating: int)

  datatype Weights = Weights(duration: real, events: real, sleepRating: real, environment: real)
  {
    function Total(): real
    {
      duration + events + sleepRating + environment
    }
  }

  const DefaultWeights := Weights(0.25, 0.25, 0.30, 0.20)

  const OptimalDurationMin := 7.0
  const OptimalDurationMax := 9.0
  const SnoreThreshold := 50.0
  const ApneaThreshold := 10.0
  const CoughThreshold := 20.0

  datatype Scorer = Scorer(weights: Weights)

  /** The constructor: `None` stands for an omitted and an empty dictionary alike,
      which `weights or defaults` both send to the defaults; weights whose sum differs
      from 1 by more than 1e-6 are refused. */
  function NewScorer(weights: Option<Weights>): (r: Result<Scorer>)
    ensures r.Ok? <==> Abs((if weights.Some? then weights.value else DefaultWeights).Total() - 1.0) <= 0.000001
    ensures r.Ok? ==> r.value.weights == (if weights.Some? then weights.value else DefaultWeights)
    ensures r.Err? ==> r.error.ValueError?
  {
    var w := if weights.Some? then weights.value else DefaultWeights;
    if Abs(w.Total() - 1.0) > 0.000001 then Err(ValueError("Weights must sum to 1.0")) else Ok(Scorer(w))
  }

  /** The default weights sum to exactly 1, so the default scorer is always built. */
  lemma DefaultScorerBuilds()
    ensures DefaultWeights.Total() == 1.0
    ensures NewScorer(None) == Ok(Scorer(Weights(0.25, 0.25, 0.30, 0.20)))
  {
  }

  // ---------------------------------------------------------------- duration

  /** The linear branch below the optimal range. */
  function ShortSleepScore(hours: real): real
  {
    Max(0.0, 100.0 - (OptimalDurationMin - hours) / OptimalDurationMin * 100.0)
  }

  /** The capped branch above the optimal range. */
  function LongSleepScore(hours: real): real
  {
    Max(0.0, 100.0 - Min(1.0, (hours - OptimalDurationMax) / 3.0) * 100.0)
  }

  /** `calculate_duration_score`. */
  function DurationScore(hours: real): real
  {
    if hours <= 0.0 then 0.0
    else if OptimalDurationMin <= hours <= OptimalDurationMax then 100.0
    else if hours < OptimalDurationMin then ShortSleepScore(hours)
    else LongSleepScore(hours)
  }

  /** The duration score lies in [0, 100]: 0 for no sleep and from 12 hours on, 100
      exactly on the optimal range, 100·d/7 below it; both penalty branches give 100
      at the range's edges, so the score is continuous there. */
  lemma DurationScoreMeaning(hours: real)
    ensures 0.0 <= DurationScore(hours) <= 100.0
    ensures hours <= 0.0 || hours >= 12.0 ==> DurationScore(hours) == 0.0
    ensures DurationScore(hours) == 100.0 <==> OptimalDurationMin <= hours <= OptimalDurationMax
    ensures 0.0 < hours < OptimalDurationMin ==> DurationScore(hours) == 100.0 * hours / 7.0
    ensures ShortSleepScore(OptimalDurationMin) == 100.0 && LongSleepScore(OptimalDurationMax) == 100.0
  {
  }

  /** The score never decreases on the way up to 7 hours and never increases after
      9 hours. */
  lemma DurationScoreMonotone(a: real, b: real)
    requires a <= b
    ensures b <= OptimalDurationMin ==> DurationScore(a) <= DurationScore(b)
    ensures OptimalDurationMax <= a ==> DurationScore(b) <= DurationScore(a)
  {
  }

  // ---------------------------------------------------------------- events

  /** Each count's share of its threshold, capped at 1. */
  function EventPenalty(count: int, threshold: real): real
    requires threshold > 0.0
  {
    Min(1.0, count as real / threshold)
  }

  /** `calculate_events_score`: apnea weighs 0.5, snoring 0.3 and coughing 0.2. */
  function EventsScore(e: SleepEventData): real
  {
    var penalty := EventPenalty(e.snoreCount, SnoreThreshold) * 0.3
                 + EventPenalty(e.apneaCount, ApneaThreshold) * 0.5
                 + EventPenalty(e.coughCount, CoughThreshold) * 0.2;
    Max(0.0, 100.0 - penalty * 100.0)
  }

  /** A night without events scores 100; with non-negative counts the score lies in
      [0, 100] and is 0 once every count reaches its threshold, while ten or more
      apnea events alone give exactly 50. */
  lemma EventsScoreMeaning(e: SleepEventData)
    requires e.snoreCount >= 0 && e.apneaCount >= 0 && e.coughCount >= 0
    ensures 0.0 <= EventsScore(e) <= 100.0
    ensures EventsScore(e) == 100.0 <==> e.snoreCount == 0 && e.apneaCount == 0 && e.coughCount == 0
    ensures e.snoreCount >= 50 && e.apneaCount >= 10 && e.coughCount >= 20 ==> EventsScore(e) == 0.0
    ensures e.snoreCount == 0 && e.coughCount == 0 && e.apneaCount >= 10 ==> EventsScore(e) == 50.0
  {
  }

  /** More events of any kind never raise the score. */
  lemma EventsScoreMonotone(e: SleepEventData, f: SleepEventData)
    requires e.snoreCount <= f.snoreCount && e.apneaCount <= f.apneaCount && e.coughCount <= f.coughCount
    ensures EventsScore(f) <= EventsScore(e)
  {
    assert EventPenalty(e.snoreCount, SnoreThreshold) <= EventPenalty(f.snoreCount, SnoreThreshold) by {
      DivMonotone(e.snoreCount as real, f.snoreCount as real, SnoreThreshold);
    }
    assert EventPenalty(e.apneaCount, ApneaThreshold) <= EventPenalty(f.apneaCount, ApneaThreshold) by {
      DivMonotone(e.apneaCount as real, f.apneaCount as real, ApneaThreshold);
    }
    assert EventPenalty(e.coughCount, CoughThreshold) <= EventPenalty(f.coughCount, CoughThreshold) by {
      DivMonotone(e.coughCount as real, f.coughCount as real, CoughThreshold);
    }
  }

  // ---------------------------------------------------------------- ratings and overall

  /** `normalize_rating`: the rating as a percentage of its scale; a scale of 0 is a
      division by zero. */
  function NormalizeRating(rating: int, scale: int): (r: Result<real>)
    ensures r.Ok? <==> scale != 0
    ensures r.Ok? ==> r.value * (scale as real) == (rating as real) * 100.0
  {
    if scale == 0 then Err(ZeroDivisionError) else Ok(rating as real / scale as real * 100.0)
  }

  /** On the default scale of 10, ratings 1..10 map to 10..100 in steps of 10. */
  lemma NormalizeRatingOnTen(rating: int)
    requires 1 <= rating <= 10
    ensures NormalizeRating(rating, 10) == Ok(10.0 * rating as real)
    ensures 10.0 <= NormalizeRating(rating, 10).value <= 100.0
  {
  }

  const ComponentKeys: set<string> := {"duration", "events", "sleep_rating", "environment", "overall"}

  /** `calculate_sleep_quality_score`: the overall score and the component map. */
  function CalculateSleepQualityScore(s: Scorer, hours: real, events: SleepEventData, reported: SelfReportedData)
    : (r: (real, map<string, real>))
    ensures 0.0 <= r.0 <= 100.0
    ensures r.1.Keys == ComponentKeys && r.1["overall"] == r.0
    ensures r.1["duration"] == DurationScore(hours) && r.1["events"] == EventsScore(events)
  {
    var duration := DurationScore(hours);
    var eventsScore := EventsScore(events);
    var sleepRating := NormalizeRating(reported.sleepRating, 10).value;
    var environment := NormalizeRating(reported.environmentRating, 10).value;
    var weighted := duration * s.weights.duration + eventsScore * s.weights.events
                    + sleepRating * s.weights.sleepRating + environment * s.weights.environment;
    var overall := Max(0.0, Min(100.0, weighted));
    var components := map["duration" := duration, "events" := eventsScore, "sleep_rating" := sleepRating,
                           "environment" := environment, "overall" := overall];
    assert components.Keys == ComponentKeys;
    (overall, components)
  }

  /** With the default weights, non-negative counts and ratings on the 0-10 scale,
      every component lies in [0, 100] and the clamp never binds: the overall score is
      the weighted sum itself. */
  lemma DefaultOverallUnclamped(hours: real, events: SleepEventData, reported: SelfReportedData)
    requires events.snoreCount >= 0 && events.apneaCount >= 0 && events.coughCount >= 0
    requires 0 <= reported.sleepRating <= 10 && 0 <= reported.environmentRating <= 10
    ensures var r := CalculateSleepQualityScore(Scorer(DefaultWeights), hours, events, reported);
      r.0 == r.1["duration"] * 0.25 + r.1["events"] * 0.25 + r.1["sleep_rating"] * 0.30 + r.1["environment"] * 0.20
  {
    DurationScoreMeaning(hours);
    EventsScoreMeaning(events);
  }

  // ---------------------------------------------------------------- category and recommendations

  datatype QualityCategory = VeryPoor | Poor | Fair | Good | Excellent
  {
    function Name(): string
    {
      match this
      case VeryPoor => "Very Poor"
      case Poor => "Poor"
      case Fair => "Fair"
      case Good => "Good"
      case Excellent => "Excellent"
    }

    function Rank(): nat
    {
      match this
      case VeryPoor => 0
      case Poor => 1
      case Fair => 2
      case Good => 3
      case Excellent => 4
    }
  }

  /** `get_quality_category`: cut-offs at 90, 80, 70 and 60. */
  function GetQualityCategory(score: real): QualityCategory
  {
    if score >= 90.0 then Excellent
    else if score >= 80.0 then Good
    else if score >= 70.0 then Fair
    else if score >= 60.0 then Poor
    else VeryPoor
  }

  /** The category never falls as the score rises, and each band is exactly its
      ten-point range. */
  lemma QualityCategoryMonotone(a: real, b: real)
    requires a <= b
    ensures GetQualityCategory(a).Rank() <= GetQualityCategory(b).Rank()
    ensures GetQualityCategory(a) == Excellent <==> a >= 90.0
    ensures GetQualityCategory(a) == VeryPoor <==> a < 60.0
    ensures GetQualityCategory(a) == Good <==> 80.0 <= a < 90.0
  {
  }

  datatype Recommendation = IncreaseDuration | KeepSchedule | ConsultAboutEvents | MonitorEvents | SleepHygiene | OptimizeEnvironment
  {
    function Text(): string
    {
      match this
      case IncreaseDuration => "Consider increasing sleep duration to 7-9 hours"
      case KeepSchedule => "Try to maintain consistent sleep schedule"
      case ConsultAboutEvents => "Consult healthcare provider about sleep events"
      case MonitorEvents => "Monitor sleep events and consider lifestyle changes"
      case SleepHygiene => "Consider sleep hygiene practices and stress management"
      case OptimizeEnvironment => "Optimize sleep environment (temperature, noise, comfort)"
    }
  }

  /** `get_recommendations`: each of the four components is looked up in turn, a
      missing one being a KeyError. */
  function GetRecommendations(c: map<string, real>): Result<seq<Recommendation>>
  {
    if "duration" !in c then Err(KeyError("duration"))
    else if "events" !in c then Err(KeyError("events"))
    else if "sleep_rating" !in c then Err(KeyError("sleep_rating"))
    else if "environment" !in c then Err(KeyError("environment"))
    else
      Ok((if c["duration"] < 70.0 then [if c["duration"] < 50.0 then IncreaseDuration else KeepSchedule] else [])
         + (if c["events"] < 80.0 then [if c["events"] < 60.0 then ConsultAboutEvents else MonitorEvents] else [])
         + (if c["sleep_rating"] < 70.0 then [SleepHygiene] else [])
         + (if c["environment"] < 70.0 then [OptimizeEnvironment] else []))
  }

  /** Recommendations exist exactly when the four component keys do, as they always
      do for the map the scorer returns; there are at most four, the two duration
      items exclude each other, and so do the two events items. */
  lemma RecommendationsMeaning(c: map<string, real>)
    ensures GetRecommendations(c).Ok? <==> {"duration", "events", "sleep_rating", "environment"} <= c.Keys
    ensures GetRecommendations(c).Ok? ==> |GetRecommendations(c).value| <= 4
    ensures GetRecommendations(c).Ok? ==>
              !(IncreaseDuration in GetRecommendations(c).value && KeepSchedule in GetRecommendations(c).value)
    ensures GetRecommendations(c).Ok? ==>
              !(ConsultAboutEvents in GetRecommendations(c).value && MonitorEvents in GetRecommendations(c).value)
    ensures GetRecommendations(c).Ok? ==> (SleepHygiene in GetRecommendations(c).value <==> c["sleep_rating"] < 70.0)
  {
    if {"duration", "events", "sleep_rating", "environment"} <= c.Keys {
      assert "duration" in c && "events" in c && "sleep_rating" in c && "environment" in c;
    }
  }

  lemma ScorerComponentsRecommend(s: Scorer, hours: real, events: SleepEventData, reported: SelfReportedData)
    ensures GetRecommendations(CalculateSleepQualityScore(s, hours, events, reported).1).Ok?
  {
    var c := CalculateSleepQualityScore(s, hours, events, reported).1;
    assert "duration" in ComponentKeys && "events" in ComponentKeys && "sleep_rating" in ComponentKeys && "environment" in ComponentKeys;
    RecommendationsMeaning(c);
  }
}
