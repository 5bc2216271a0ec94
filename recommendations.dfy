/**
 * The rule helpers of the recommendation engine
 * (`layer3rl/recommendation_engine.py`): which environmental factors matter
 * most for a user, the risks and implementation notes of a set of recommended
 * settings, the night-time schedules, the categorisers, the overall confidence,
 * the profile completeness and the export-format check.
 *
 * The recommended settings come from the trained agent; here they are an input.
 * Formatting of numbers into note text and the serialisation of reports are not
 * modelled.
 */
module Recommendations {
  import opened Wrappers
  import opened Numeric
  import opened UserProfiles
  import opened SleepSimulator

  /** `[x]` when the condition holds, else nothing. */
  function Optionally<T>(c: bool, x: T): seq<T>
  {
    if c then [x] else []
  }

  // ---------------------------------------------------------------- priority factors

  datatype PriorityFactor = Temperature | LightControl | NoiseManagement | HumidityControl | Airflow
  {
    function Name(): string
    {
      match this
      case Temperature => "Temperature"
      case LightControl => "Light Control"
      case NoiseManagement => "Noise Management"
      case HumidityControl => "Humidity Control"
      case Airflow => "Airflow"
    }
  }

  /** `_identify_priority_factors`: temperature, then each sensitivity that applies,
      keeping the first three. */
  function PriorityFactors(p: UserProfile): seq<PriorityFactor>
  {
    Cut(Sensitivities(p.lightSensitivity < 0.3, p.noiseTolerance < 0.3) + Preferences(p))
  }

  /** Temperature, then light and noise when the user is sensitive to them. */
  function Sensitivities(light: bool, noise: bool): seq<PriorityFactor>
  {
    [Temperature] + Optionally(light, LightControl) + Optionally(noise, NoiseManagement)
  }

  /** The humidity and airflow preferences that stand out. */
  function Preferences(p: UserProfile): seq<PriorityFactor>
  {
    Optionally(Abs(p.humidityPreference - 0.5) > 0.2, HumidityControl)
      + Optionally(p.airflowPreference > 0.7, Airflow)
  }

  /** The list starts with temperature and holds one to three factors; light and
      noise sensitivity always make the cut, being checked first. */
  lemma PriorityFactorsMeaning(p: UserProfile)
    ensures 1 <= |PriorityFactors(p)| <= 3 && PriorityFactors(p)[0] == Temperature
    ensures LightControl in PriorityFactors(p) <==> p.lightSensitivity < 0.3
    ensures NoiseManagement in PriorityFactors(p) <==> p.noiseTolerance < 0.3
    ensures p.lightSensitivity < 0.3 && p.noiseTolerance < 0.3 ==>
              PriorityFactors(p) == [Temperature, LightControl, NoiseManagement]
  {
    var first := Sensitivities(p.lightSensitivity < 0.3, p.noiseTolerance < 0.3);
    SensitivitiesMeaning(p.lightSensitivity < 0.3, p.noiseTolerance < 0.3);
    assert LightControl !in Preferences(p) && NoiseManagement !in Preferences(p);
    PrefixKept(first, Preferences(p));
  }

  lemma SensitivitiesMeaning(light: bool, noise: bool)
    ensures 1 <= |Sensitivities(light, noise)| <= 3 && Sensitivities(light, noise)[0] == Temperature
    ensures LightControl in Sensitivities(light, noise) <==> light
    ensures NoiseManagement in Sensitivities(light, noise) <==> noise
    ensures light && noise ==> Sensitivities(light, noise) == [Temperature, LightControl, NoiseManagement]
  {
  }

  /** `xs[:3]`. */
  function Cut(xs: seq<PriorityFactor>): seq<PriorityFactor>
  {
    if |xs| <= 3 then xs else xs[..3]
  }

  /** Cutting `first + rest` to three entries keeps all of a `first` of at most three,
      and only entries of the two parts. */
  lemma PrefixKept(first: seq<PriorityFactor>, rest: seq<PriorityFactor>)
    requires 1 <= |first| <= 3
    ensures var kept := Cut(first + rest);
      1 <= |kept| <= 3 && kept[..|first|] == first && (rest == [] ==> kept == first) &&
      (forall x :: x in first ==> x in kept) &&
      (forall x :: x in kept ==> x in first || x in rest)
  {
    var kept := Cut(first + rest);
    assert kept == first + kept[|first|..];
    forall x | x in kept ensures x in first || x in rest {
      var i :| 0 <= i < |kept| && kept[i] == x;
      if i >= |first| {
        assert x == rest[i - |first|];
      }
    }
  }

  // ---------------------------------------------------------------- risks and notes

  datatype SettingRisk = TemperatureOutOfRange | BrightLight | DisruptiveNoise | HighHumidity
  {
    function Text(): string
    {
      match this
      case TemperatureOutOfRange => "Temperature outside optimal range"
      case BrightLight => "Light intensity may interfere with sleep"
      case DisruptiveNoise => "Noise level may be disruptive"
      case HighHumidity => "High humidity may affect breathing"
    }
  }

  /** `_identify_risk_factors` of a set of recommended settings. */
  function SettingRisks(s: Settings): seq<SettingRisk>
  {
    Optionally(s.temperature < 15.0 || s.temperature > 25.0, TemperatureOutOfRange)
    + Optionally(s.lightIntensity > 0.3, BrightLight)
    + Optionally(s.noiseLevel > 0.6, DisruptiveNoise)
    + Optionally(s.humidity > 0.7, HighHumidity)
  }

  /** Each risk is named exactly when its threshold is crossed, at most once. */
  lemma SettingRisksMeaning(s: Settings)
    ensures TemperatureOutOfRange in SettingRisks(s) <==> s.temperature < 15.0 || s.temperature > 25.0
    ensures BrightLight in SettingRisks(s) <==> s.lightIntensity > 0.3
    ensures DisruptiveNoise in SettingRisks(s) <==> s.noiseLevel > 0.6
    ensures HighHumidity in SettingRisks(s) <==> s.humidity > 0.7
    ensures |SettingRisks(s)| <= 4
  {
  }

  /** The implementation notes; the temperature note carries the adjustment in degrees. */
  datatype Note = TemperatureAdjustment(degrees: real) | CompleteDarkness | BlackoutCurtains | WhiteOrPinkNoise

  /** `_create_implementation_notes`, against a typical room at 20 degrees. */
  function ImplementationNotes(s: Settings): seq<Note>
  {
    var diff := Abs(s.temperature - 20.0);
    Optionally(diff > 3.0, TemperatureAdjustment(diff))
    + (if s.lightIntensity < 0.1 then [CompleteDarkness] else Optionally(s.lightIntensity > 0.2, BlackoutCurtains))
    + Optionally(s.noiseType < 0.5, WhiteOrPinkNoise)
  }

  /** A temperature note appears exactly when the setting is more than 3 degrees from
      20, carrying that distance; the two light notes exclude each other, and neither
      appears for an intensity in [0.1, 0.2]. */
  lemma ImplementationNotesMeaning(s: Settings)
    ensures TemperatureAdjustment(Abs(s.temperature - 20.0)) in ImplementationNotes(s) <==> Abs(s.temperature - 20.0) > 3.0
    ensures forall n :: n in ImplementationNotes(s) && n.TemperatureAdjustment? ==> n.degrees == Abs(s.temperature - 20.0)
    ensures !(CompleteDarkness in ImplementationNotes(s) && BlackoutCurtains in ImplementationNotes(s))
    ensures CompleteDarkness in ImplementationNotes(s) <==> s.lightIntensity < 0.1
    ensures BlackoutCurtains in ImplementationNotes(s) <==> s.lightIntensity > 0.2
    ensures WhiteOrPinkNoise in ImplementationNotes(s) <==> s.noiseType < 0.5
  {
  }

  // ---------------------------------------------------------------- schedules

  datatype TemperatureStep = TemperatureStep(time: string, temperature: real, action: string)
  datatype LightStep = LightStep(time: string, intensity: real, colorTemp: real, action: string)
  datatype NoiseStep = NoiseStep(time: string, level: real, noiseType: string, action: string)

  /** `_create_temperature_schedule`. */
  function TemperatureSchedule(optimal: real): seq<TemperatureStep>
  {
    [ TemperatureStep("21:00", optimal + 1.0, "Begin cooling"),
      TemperatureStep("22:00", optimal + 0.5, "Continue cooling"),
      TemperatureStep("23:00", optimal, "Maintain optimal temperature"),
      TemperatureStep("06:00", optimal + 1.0, "Begin warming") ]
  }

  /** Four steps whose lowest temperature is the optimal one, reached at 23:00. */
  lemma TemperatureScheduleMeaning(optimal: real)
    ensures |TemperatureSchedule(optimal)| == 4
    ensures forall i :: 0 <= i < 4 ==> TemperatureSchedule(optimal)[i].temperature >= optimal
    ensures TemperatureSchedule(optimal)[2].temperature == optimal && TemperatureSchedule(optimal)[2].time == "23:00"
  {
  }

  /** `_create_light_schedule`. */
  function LightSchedule(intensity: real, colorTemp: real): seq<LightStep>
  {
    [ LightStep("20:00", Min(intensity + 0.2, 1.0), Max(colorTemp - 0.2, 0.0), "Begin dimming, warm light"),
      LightStep("21:00", intensity, colorTemp, "Maintain sleep lighting"),
      LightStep("22:00", Max(intensity - 0.1, 0.0), colorTemp, "Further dimming"),
      LightStep("06:00", Min(intensity + 0.3, 1.0), Min(colorTemp + 0.3, 1.0), "Gradual brightening, cool light") ]
  }

  /** Four steps at 20:00, 21:00, 22:00 and 06:00; for inputs in [0, 1] every intensity
      and colour temperature stays in [0, 1], and the light dims until 22:00. */
  lemma LightScheduleMeaning(intensity: real, colorTemp: real)
    requires 0.0 <= intensity <= 1.0 && 0.0 <= colorTemp <= 1.0
    ensures var s := LightSchedule(intensity, colorTemp);
      |s| == 4 && s[0].time == "20:00" && s[1].time == "21:00" && s[2].time == "22:00" && s[3].time == "06:00"
    ensures forall step :: step in LightSchedule(intensity, colorTemp) ==>
              0.0 <= step.intensity <= 1.0 && 0.0 <= step.colorTemp <= 1.0
    ensures var s := LightSchedule(intensity, colorTemp);
      s[2].intensity <= s[1].intensity <= s[0].intensity
  {
  }

  datatype NoiseKind = White | Pink | Nature | Fan
  {
    function Name(): string
    {
      match this
      case White => "white"
      case Pink => "pink"
      case Nature => "nature"
      case Fan => "fan"
    }

    function Rank(): nat
    {
      match this
      case White => 0
      case Pink => 1
      case Nature => 2
      case Fan => 3
    }
  }

  /** `_noise_type_to_string`. */
  function NoiseTypeToString(noiseType: real): NoiseKind
  {
    if noiseType < 0.25 then White else if noiseType < 0.5 then Pink else if noiseType < 0.75 then Nature else Fan
  }

  /** The cut-offs 0.25, 0.5 and 0.75 split the line into four intervals, one per kind,
      in order. */
  lemma NoiseTypePartition(a: real, b: real)
    requires a <= b
    ensures NoiseTypeToString(a) == White <==> a < 0.25
    ensures NoiseTypeToString(a) == Pink <==> 0.25 <= a < 0.5
    ensures NoiseTypeToString(a) == Nature <==> 0.5 <= a < 0.75
    ensures NoiseTypeToString(a) == Fan <==> 0.75 <= a
    ensures NoiseTypeToString(a).Rank() <= NoiseTypeToString(b).Rank()
  {
  }

  /** `_create_noise_schedule`. */
  function NoiseSchedule(level: real, noiseType: real): seq<NoiseStep>
  {
    var kind := NoiseTypeToString(noiseType).Name();
    [ NoiseStep("21:00", Min(level + 0.1, 1.0), kind, "Begin ambient noise"),
      NoiseStep("22:00", level, kind, "Maintain sleep noise"),
      NoiseStep("06:00", Max(level - 0.2, 0.0), "none", "Gradually reduce noise") ]
  }

  /** Three steps: the chosen noise kind twice, then none at 06:00; levels stay in
      [0, 1] for a level in [0, 1]. */
  lemma NoiseScheduleMeaning(level: real, noiseType: real)
    requires 0.0 <= level <= 1.0
    ensures var s := NoiseSchedule(level, noiseType);
      |s| == 3 && s[2].noiseType == "none" && s[2].time == "06:00" &&
      s[0].noiseType == s[1].noiseType == NoiseTypeToString(noiseType).Name()
    ensures forall step :: step in NoiseSchedule(level, noiseType) ==> 0.0 <= step.level <= 1.0
  {
  }

  // ---------------------------------------------------------------- categorisers

  datatype SleepScoreCategory = VeryPoor | Poor | Fair | Good | Excellent
  {
    function Name(): string
    {
      match this
      case VeryPoor => "very_poor"
      case Poor => "poor"
      case Fair => "fair"
      case Good => "good"
      case Excellent => "excellent"
    }

    function Rank(): nat
    {
      match this
      case VeryPoor => 0
      case Poor => 1
      case Fair => 2
      case Good => 3
      case Excellent => 4
    }
  }

  /** `_categorize_sleep_score`: cut-offs at 80, 70, 60 and 50. */
  function CategorizeSleepScore(score: real): SleepScoreCategory
  {
    if score >= 80.0 then Excellent
    else if score >= 70.0 then Good
    else if score >= 60.0 then Fair
    else if score >= 50.0 then Poor
    else VeryPoor
  }

  lemma SleepScoreCategoryMonotone(a: real, b: real)
    requires a <= b
    ensures CategorizeSleepScore(a).Rank() <= CategorizeSleepScore(b).Rank()
    ensures CategorizeSleepScore(a) == Excellent <==> a >= 80.0
    ensures CategorizeSleepScore(a) == VeryPoor <==> a < 50.0
  {
  }

  datatype Level = Low | Moderate | High
  {
    function Name(): string
    {
      match this
      case Low => "low"
      case Moderate => "moderate"
      case High => "high"
    }

    function Rank(): nat
    {
      match this
      case Low => 0
      case Moderate => 1
      case High => 2
    }
  }

  /** `_assess_improvement_potential`: the lower the baseline score (60 when missing
      or zero), the higher the potential. */
  function ImprovementPotential(p: UserProfile): Level
  {
    var baseline := OrDefault(p.baselineSleepScore, 60.0);
    if baseline < 60.0 then High else if baseline < 75.0 then Moderate else Low
  }

  /** A better baseline never means more potential; without a baseline it is moderate. */
  lemma ImprovementPotentialMonotone(p: UserProfile, a: real, b: real)
    requires 0.0 < a <= b
    ensures ImprovementPotential(p.(baselineSleepScore := Some(b))).Rank()
              <= ImprovementPotential(p.(baselineSleepScore := Some(a))).Rank()
    ensures ImprovementPotential(p.(baselineSleepScore := None)) == Moderate
    ensures ImprovementPotential(p.(baselineSleepScore := Some(a))) == High <==> a < 60.0
  {
  }

  /** `_categorize_risk`: cut-offs at 0.1 and 0.25. */
  function CategorizeRisk(value: real): Level
  {
    if value < 0.1 then Low else if value < 0.25 then Moderate else High
  }

  lemma RiskCategoryMonotone(a: real, b: real)
    requires a <= b
    ensures CategorizeRisk(a).Rank() <= CategorizeRisk(b).Rank()
    ensures CategorizeRisk(a) == Low <==> a < 0.1
    ensures CategorizeRisk(a) == High <==> a >= 0.25
  {
  }

  datatype RiskAssessment = RiskAssessment(apneaLevel: Level, apneaValue: real, fragmentationLevel: Level, fragmentationValue: real)

  /** `_assess_risks`: the apnea risk (0.1 when missing) and the fragmentation (15
      when missing, rated on a scale of 50). */
  function AssessRisks(p: UserProfile): RiskAssessment
  {
    var apnea := OrDefault(p.baselineApneaRisk, 0.1);
    var fragmentation := OrDefault(p.baselineFragmentation, 15.0);
    RiskAssessment(CategorizeRisk(apnea), apnea, CategorizeRisk(fragmentation / 50.0), fragmentation)
  }

  /** Without baselines the apnea risk rates moderate but the default fragmentation of
      15 already rates high; a fragmentation rates high exactly from 12.5 on. */
  lemma AssessRisksDefaults(p: UserProfile)
    requires p.baselineApneaRisk.None? && p.baselineFragmentation.None?
    ensures AssessRisks(p) == RiskAssessment(Moderate, 0.1, High, 15.0)
    ensures forall f: real :: f != 0.0 ==>
              (AssessRisks(p.(baselineFragmentation := Some(f))).fragmentationLevel == High <==> f >= 12.5)
  {
  }

  // ---------------------------------------------------------------- confidence and completeness

  const DataQualityScore := 0.8

  /** `_calculate_overall_confidence` from the agent's base confidence and the profile
      completeness, capped at 0.95. */
  function OverallConfidence(base: real, completeness: real): real
  {
    Min(base * 0.5 + DataQualityScore * 0.3 + completeness * 0.2, 0.95)
  }

  /** Never above 0.95; for a base and a completeness in [0, 1] it lies in [0.24, 0.95],
      and it never falls as either input rises. */
  lemma OverallConfidenceBounds(base: real, completeness: real, base2: real, completeness2: real)
    requires base <= base2 && completeness <= completeness2
    ensures OverallConfidence(base, completeness) <= 0.95
    ensures 0.0 <= base <= 1.0 && 0.0 <= completeness <= 1.0 ==> 0.24 <= OverallConfidence(base, completeness)
    ensures OverallConfidence(base, completeness) <= OverallConfidence(base2, completeness2)
  {
  }

  function Present<T>(o: Option<T>): nat
  {
    if o.Some? then 1 else 0
  }

  /** How many of the seven optional profile fields are set (a zero counts as set). */
  function OptionalFieldsPresent(p: UserProfile): nat
  {
    Present(p.baselineSleepScore) + Present(p.baselineApneaRisk) + Present(p.baselineFragmentation)
    + Present(p.age) + Present(p.gender) + Present(p.weight) + Present(p.height)
  }

  /** `_calculate_profile_completeness`: 0.7 for the five required preferences, which
      a profile always has, plus 0.3 times the share of optional fields present. */
  function ProfileCompleteness(p: UserProfile): real
  {
    var requiredShare := 5.0 / 5.0;
    var optionalShare := OptionalFieldsPresent(p) as real / 7.0;
    requiredShare * 0.7 + optionalShare * 0.3
  }

  /** Completeness lies in [0.7, 1], reaching 1 exactly when every optional field is
      present; so the overall confidence of an agent whose base confidence lies in
      [0, 1] lies in [0.38, 0.95]. */
  lemma ProfileCompletenessBounds(p: UserProfile, base: real)
    requires 0.0 <= base <= 1.0
    ensures 0.7 <= ProfileCompleteness(p) <= 1.0
    ensures ProfileCompleteness(p) == 1.0 <==> OptionalFieldsPresent(p) == 7
    ensures 0.38 <= OverallConfidence(base, ProfileCompleteness(p)) <= 0.95
  {
    assert OptionalFieldsPresent(p) <= 7;
  }

  // ---------------------------------------------------------------- export

  datatype ExportFormat = Json | Dict

  /** The format check of `export_report`: "json" and "dict" are accepted, anything
      else is a ValueError. */
  function ExportFormatOf(format: string): Result<ExportFormat>
  {
    if format == "json" then Ok(Json) else if format == "dict" then Ok(Dict) else Err(ValueError("Unsupported format"))
  }

  lemma ExportFormatMeaning(format: string)
    ensures ExportFormatOf(format).Ok? <==> format == "json" || format == "dict"
    ensures ExportFormatOf(format).Err? ==> ExportFormatOf(format).error.ValueError?
    ensures ExportFormatOf("json") == Ok(Json) && ExportFormatOf("dict") == Ok(Dict)
  {
  }
}
