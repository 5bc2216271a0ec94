/**
 * The simulated bedroom of the environment-optimisation layer
 * (`layer3rl/sleep_environment.py`).
 *
 * An `EnvironmentState` object holds seven environmental factors, three sleep
 * metrics and a time step; `SleepEnvironment.Step` adjusts the factors by a
 * seven-component action, clipped to their ranges, recomputes the sleep
 * metrics from the user's preferences, computes a clipped reward and appends
 * a record to the episode history.  Each operation on the object is a method
 * proved against a function on `Conditions`, the values of the object's fields.
 */
module SleepSimulator {
  import opened Wrappers
  import opened Numeric
  import opened UserProfiles

  const TempMin := 10.0
  const TempMax := 30.0
  const HumidityMin := 0.2
  const HumidityMax := 0.8
  /** Number of components of an action: the changes of the seven factors. */
  const ActionDims := 7
  /** Number of entries of an observation. */
  const ObservationDims := 16

  /** Lower and upper bounds of the observation space. */
  const ObservationLow: seq<real> :=
    [10.0, 0.0, 0.0, 0.0, 0.0, 0.2, 0.0, 0.0, 0.0, 0.0, 0.0, 15.0, 0.0, 0.0, 0.0, 0.0]
  const ObservationHigh: seq<real> :=
    [30.0, 1.0, 1.0, 1.0, 1.0, 0.8, 1.0, 100.0, 50.0, 1.0, 100.0, 25.0, 1.0, 1.0, 1.0, 1.0]

  /** The values of an `EnvironmentState`'s fields. */
  datatype Conditions = Conditions(
    temperature: real,
    lightIntensity: real,
    lightColorTemp: real,
    noiseLevel: real,
    noiseType: real,
    humidity: real,
    airflow: real,
    sleepScore: real,
    fragmentation: real,
    apneaRisk: real,
    timeStep: int)

  class EnvironmentState {
    var temperature: real
    var lightIntensity: real
    var lightColorTemp: real
    var noiseLevel: real
    var noiseType: real
    var humidity: real
    var airflow: real
    var sleepScore: real
    var fragmentation: real
    var apneaRisk: real
    var timeStep: int

    function Values(): Conditions
      reads this
    {
      Conditions(temperature, lightIntensity, lightColorTemp, noiseLevel, noiseType, humidity, airflow,
                 sleepScore, fragmentation, apneaRisk, timeStep)
    }

    constructor(c: Conditions)
      ensures Values() == c
    {
      temperature, lightIntensity, lightColorTemp := c.temperature, c.lightIntensity, c.lightColorTemp;
      noiseLevel, noiseType, humidity, airflow := c.noiseLevel, c.noiseType, c.humidity, c.airflow;
      sleepScore, fragmentation, apneaRisk, timeStep := c.sleepScore, c.fragmentation, c.apneaRisk, c.timeStep;
    }
  }

  /** Every environmental factor inside the range the action clips it to. */
  predicate WithinBounds(c: Conditions)
  {
    TempMin <= c.temperature <= TempMax &&
    0.0 <= c.lightIntensity <= 1.0 && 0.0 <= c.lightColorTemp <= 1.0 &&
    0.0 <= c.noiseLevel <= 1.0 && 0.0 <= c.noiseType <= 1.0 &&
    HumidityMin <= c.humidity <= HumidityMax && 0.0 <= c.airflow <= 1.0
  }

  /** The state installed by `reset`: fixed factors and the profile's baseline
      metrics, with 60, 15 and 0.1 in place of a missing (or zero) baseline. */
  function Baseline(p: UserProfile): (c: Conditions)
    ensures WithinBounds(c) && c.timeStep == 0
  {
    Conditions(20.0, 0.1, 0.3, 0.2, 0.0, 0.5, 0.3,
               OrDefault(p.baselineSleepScore, 60.0),
               OrDefault(p.baselineFragmentation, 15.0),
               OrDefault(p.baselineApneaRisk, 0.1),
               0)
  }

  // ---------------------------------------------------------------- the action

  /** `_apply_action`: each factor moves by its component of the action and is clipped. */
  function Adjusted(c: Conditions, action: seq<real>): Conditions
    requires |action| == ActionDims
  {
    c.(temperature := Clip(c.temperature + action[0], TempMin, TempMax),
       lightIntensity := Clip(c.lightIntensity + action[1], 0.0, 1.0),
       lightColorTemp := Clip(c.lightColorTemp + action[2], 0.0, 1.0),
       noiseLevel := Clip(c.noiseLevel + action[3], 0.0, 1.0),
       noiseType := Clip(c.noiseType + action[4], 0.0, 1.0),
       humidity := Clip(c.humidity + action[5], HumidityMin, HumidityMax),
       airflow := Clip(c.airflow + action[6], 0.0, 1.0))
  }

  /** After an action every factor is in range; a factor whose requested value is in
      range takes exactly that value; the metrics and the time step are untouched. */
  lemma AdjustedMeaning(c: Conditions, action: seq<real>)
    requires |action| == ActionDims
    ensures WithinBounds(Adjusted(c, action))
    ensures TempMin <= c.temperature + action[0] <= TempMax ==>
              Adjusted(c, action).temperature == c.temperature + action[0]
    ensures HumidityMin <= c.humidity + action[5] <= HumidityMax ==>
              Adjusted(c, action).humidity == c.humidity + action[5]
    ensures 0.0 <= c.lightIntensity + action[1] <= 1.0 ==>
              Adjusted(c, action).lightIntensity == c.lightIntensity + action[1]
    ensures 0.0 <= c.noiseLevel + action[3] <= 1.0 ==>
              Adjusted(c, action).noiseLevel == c.noiseLevel + action[3]
    ensures var a := Adjusted(c, action);
      a.sleepScore == c.sleepScore && a.fragmentation == c.fragmentation &&
      a.apneaRisk == c.apneaRisk && a.timeStep == c.timeStep
  {
  }

  // ---------------------------------------------------------------- the sleep metrics

  /** 1 at the preferred temperature, falling to 0 five degrees away. */
  function TemperatureFactor(c: Conditions, p: UserProfile): real
  {
    Max(0.0, 1.0 - Abs(c.temperature - p.tempOptimal) / 5.0)
  }

  function LightFactor(c: Conditions, p: UserProfile): real
  {
    1.0 - c.lightIntensity * p.lightSensitivity
  }

  /** White and pink noise (type below 0.5) earn a bonus of 0.2, capped at 1. */
  function NoiseFactor(c: Conditions, p: UserProfile): real
  {
    var f := 1.0 - c.noiseLevel * (1.0 - p.noiseTolerance);
    if c.noiseType < 0.5 then Min(1.0, f + 0.2) else f
  }

  function HumidityFactor(c: Conditions, p: UserProfile): real
  {
    Max(0.0, 1.0 - Abs(c.humidity - p.humidityPreference))
  }

  function AirflowFactor(c: Conditions, p: UserProfile): real
  {
    Max(0.0, 1.0 - Abs(c.airflow - p.airflowPreference))
  }

  function EnvironmentalBonus(c: Conditions, p: UserProfile): real
  {
    TemperatureFactor(c, p) * 15.0 + LightFactor(c, p) * 10.0 + NoiseFactor(c, p) * 10.0 +
    HumidityFactor(c, p) * 3.0 + AirflowFactor(c, p) * 2.0
  }

  /** Extreme temperatures add 0.2 and high humidity 0.1 to the apnea-risk multiplier. */
  function ApneaModifier(c: Conditions): real
  {
    1.0 + (if c.temperature < 15.0 || c.temperature > 25.0 then 0.2 else 0.0)
        + (if c.humidity > 0.7 then 0.1 else 0.0)
  }

  /** `_update_sleep_metrics`: the sleep score, fragmentation and apnea risk of the
      current factors. */
  function MetricsUpdated(c: Conditions, p: UserProfile): Conditions
  {
    var score := Clip(60.0 + EnvironmentalBonus(c, p), 0.0, 100.0);
    c.(sleepScore := score,
       fragmentation := Max(0.0, OrDefault(p.baselineFragmentation, 15.0) - (score - 60.0) / 40.0 * 10.0),
       apneaRisk := Min(1.0, OrDefault(p.baselineApneaRisk, 0.1) * ApneaModifier(c)))
  }

  /** The recomputed metrics are bounded: the score lies in [0, 100], fragmentation is
      non-negative and at most 15 above its baseline, and the apnea risk is at most 1.
      Only the three metrics change. */
  lemma MetricsUpdatedBounds(c: Conditions, p: UserProfile)
    ensures var m := MetricsUpdated(c, p);
      0.0 <= m.sleepScore <= 100.0 && m.apneaRisk <= 1.0 &&
      0.0 <= m.fragmentation <= Max(0.0, OrDefault(p.baselineFragmentation, 15.0) + 15.0)
    ensures MetricsUpdated(c, p).(sleepScore := c.sleepScore, fragmentation := c.fragmentation,
                                  apneaRisk := c.apneaRisk) == c
  {
    var score := Clip(60.0 + EnvironmentalBonus(c, p), 0.0, 100.0);
    ClipWithin(60.0 + EnvironmentalBonus(c, p), 0.0, 100.0);
    DivMonotone(0.0 - 60.0, score - 60.0, 40.0);
  }

  /** The apnea risk never falls below the baseline and rises by at most 30 percent
      (both capped at 1); it stays at the baseline exactly when the temperature is in
      [15, 25] and the humidity at most 0.7. */
  lemma ApneaRiskMeaning(c: Conditions, p: UserProfile)
    requires 0.0 < OrDefault(p.baselineApneaRisk, 0.1) < 1.0
    ensures var base := OrDefault(p.baselineApneaRisk, 0.1);
      var risk := MetricsUpdated(c, p).apneaRisk;
      base <= risk <= Min(1.0, base * 1.3) &&
      (risk == base <==> 15.0 <= c.temperature <= 25.0 && c.humidity <= 0.7)
  {
    var base := OrDefault(p.baselineApneaRisk, 0.1);
    var m := ApneaModifier(c);
    assert 1.0 <= m <= 1.3;
    assert base * 1.0 <= base * m <= base * 1.3;
    if !(15.0 <= c.temperature <= 25.0 && c.humidity <= 0.7) {
      assert m >= 1.1;
      assert base * m >= base * 1.1;
    }
  }

  /** With the factors in range and the profile's sensitivities in [0, 1], every
      factor lies in [0, 1], so the score lies in [60, 100] and the clip never binds;
      fragmentation then never exceeds its baseline. */
  lemma ScoreFromFactors(c: Conditions, p: UserProfile)
    requires WithinBounds(c)
    requires 0.0 <= p.lightSensitivity <= 1.0 && 0.0 <= p.noiseTolerance <= 1.0
    requires OrDefault(p.baselineFragmentation, 15.0) >= 0.0
    ensures 60.0 <= MetricsUpdated(c, p).sleepScore <= 100.0
    ensures MetricsUpdated(c, p).sleepScore == 60.0 + EnvironmentalBonus(c, p)
    ensures MetricsUpdated(c, p).fragmentation <= OrDefault(p.baselineFragmentation, 15.0)
  {
    ProductWithinUnit(c.lightIntensity, p.lightSensitivity);
    ProductWithinUnit(c.noiseLevel, 1.0 - p.noiseTolerance);
    assert 0.0 <= TemperatureFactor(c, p) <= 1.0;
    assert 0.0 <= LightFactor(c, p) <= 1.0;
    assert 0.0 <= NoiseFactor(c, p) <= 1.0;
    assert 0.0 <= HumidityFactor(c, p) <= 1.0 && 0.0 <= AirflowFactor(c, p) <= 1.0;
    var bonus := EnvironmentalBonus(c, p);
    var score := MetricsUpdated(c, p).sleepScore;
    assert score == 60.0 + bonus;
    DivMonotone(0.0, score - 60.0, 40.0);
  }

  lemma ProductWithinUnit(x: real, y: real)
    requires 0.0 <= x <= 1.0 && 0.0 <= y <= 1.0
    ensures 0.0 <= x * y <= 1.0
  {
    assert 0.0 * y <= x * y <= 1.0 * y;
  }

  // ---------------------------------------------------------------- reward

  /** Penalty for a temperature more than five degrees from the preference, light
      above 0.5 and noise above 0.7. */
  function ComfortPenalty(c: Conditions, p: UserProfile): real
  {
    var temperatureComfort := 1.0 - Abs(c.temperature - p.tempOptimal) / 10.0;
    Max(0.0, 0.5 - temperatureComfort) * 0.3
      + (if c.lightIntensity > 0.5 then (c.lightIntensity - 0.5) * 0.2 else 0.0)
      + (if c.noiseLevel > 0.7 then (c.noiseLevel - 0.7) * 0.2 else 0.0)
  }

  /** `_calculate_reward`. */
  function Reward(c: Conditions, p: UserProfile): real
  {
    Clip(c.sleepScore / 100.0 - ComfortPenalty(c, p) - c.apneaRisk * 0.5 - (c.fragmentation / 50.0) * 0.3,
         -1.0, 1.0)
  }

  /** The reward lies in [-1, 1]; with non-negative risk and fragmentation it never
      exceeds the sleep score's share of 100, and a comfortable room at zero risk and
      fragmentation earns exactly that share. */
  lemma RewardMeaning(c: Conditions, p: UserProfile)
    requires 0.0 <= c.sleepScore <= 100.0
    ensures -1.0 <= Reward(c, p) <= 1.0
    ensures c.apneaRisk >= 0.0 && c.fragmentation >= 0.0 ==> Reward(c, p) <= c.sleepScore / 100.0
    ensures c.apneaRisk == 0.0 && c.fragmentation == 0.0 && ComfortPenalty(c, p) == 0.0 ==>
              Reward(c, p) == c.sleepScore / 100.0
  {
    DivMonotone(0.0, c.sleepScore, 100.0);
    DivMonotone(c.sleepScore, 100.0, 100.0);
    if c.fragmentation >= 0.0 {
      DivMonotone(0.0, c.fragmentation, 50.0);
    }
  }

  // ---------------------------------------------------------------- observation

  /** `_get_observation`: the ten state entries, the time step and five preferences. */
  function Observation(c: Conditions, p: UserProfile): (obs: seq<real>)
    ensures |obs| == ObservationDims
    ensures WithinBounds(c) ==> forall j :: 0 <= j < 7 ==> ObservationLow[j] <= obs[j] <= ObservationHigh[j]
    ensures obs[10] == c.timeStep as real && obs[11] == p.tempOptimal
  {
    [c.temperature, c.lightIntensity, c.lightColorTemp, c.noiseLevel, c.noiseType, c.humidity, c.airflow,
     c.sleepScore, c.fragmentation, c.apneaRisk, c.timeStep as real,
     p.tempOptimal, p.lightSensitivity, p.noiseTolerance, p.humidityPreference, p.airflowPreference]
  }

  /** One step on values: the action, then the new time step, then the metrics. */
  function Stepped(c: Conditions, action: seq<real>, p: UserProfile): Conditions
    requires |action| == ActionDims
  {
    MetricsUpdated(Adjusted(c, action).(timeStep := c.timeStep + 1), p)
  }

  // ---------------------------------------------------------------- optimal settings

  datatype Settings = Settings(
    temperature: real, lightIntensity: real, lightColorTemp: real, noiseLevel: real,
    noiseType: real, humidity: real, airflow: real)

  /** `get_optimal_settings`. */
  function GetOptimalSettings(p: UserProfile): Settings
  {
    Settings(p.tempOptimal, 0.0, 0.3, 0.1, 0.0, p.humidityPreference, p.airflowPreference)
  }

  /** A room set to the optimal settings reaches the top sleep score of 100: the
      temperature, light, humidity and airflow factors are all 1, and so is the noise
      factor once white noise adds its bonus.  The first clause is the content; the
      second, that no room scores higher, follows from the clip at 100 in
      `MetricsUpdated` alone. */
  lemma OptimalSettingsMaximiseScore(c: Conditions, p: UserProfile)
    requires 0.0 <= p.noiseTolerance <= 1.0
    requires var s := GetOptimalSettings(p);
      c.temperature == s.temperature && c.lightIntensity == s.lightIntensity &&
      c.noiseLevel == s.noiseLevel && c.noiseType == s.noiseType &&
      c.humidity == s.humidity && c.airflow == s.airflow
    ensures MetricsUpdated(c, p).sleepScore == 100.0
    ensures forall d: Conditions :: MetricsUpdated(d, p).sleepScore <= MetricsUpdated(c, p).sleepScore
  {
    assert NoiseFactor(c, p) == 1.0;
    forall d: Conditions
      ensures MetricsUpdated(d, p).sleepScore <= 100.0
    {
      MetricsUpdatedBounds(d, p);
    }
  }

  // ---------------------------------------------------------------- the environment

  /** One entry of the episode history.  `state` is an object reference. */
  datatype HistoryRecord = HistoryRecord(timeStep: int, state: EnvironmentState, action: seq<real>, reward: real)

  datatype StepOutcome = StepOutcome(observation: seq<real>, reward: real, terminated: bool, truncated: bool)

  class SleepEnvironment {
    const userProfile: UserProfile
    const episodeLength: int
    var currentState: EnvironmentState?
    var timeStep: int
    var episodeHistory: seq<HistoryRecord>

    /** Reset has run: the state exists, carries the environment's time step, has its
        factors in range, and the history holds one record per step. */
    ghost predicate Valid()
      reads this, currentState
    {
      StateValid() && |episodeHistory| == timeStep &&
      forall i :: 0 <= i < |episodeHistory| ==> episodeHistory[i].timeStep == i + 1
    }

    ghost predicate StateValid()
      reads this, currentState
    {
      currentState != null && 0 <= timeStep && currentState.timeStep == timeStep &&
      WithinBounds(currentState.Values())
    }

    /** Every history record refers to the one live state object. */
    predicate HistoryAliasesState()
      reads this
    {
      forall i :: 0 <= i < |episodeHistory| ==> episodeHistory[i].state == currentState
    }

    constructor(profile: UserProfile, length: int)
      ensures userProfile == profile && episodeLength == length
      ensures currentState == null && timeStep == 0 && episodeHistory == []
    {
      userProfile := profile;
      episodeLength := length;
      currentState := null;
      timeStep := 0;
      episodeHistory := [];
    }

    method Reset() returns (obs: seq<real>)
      modifies this
      ensures Valid() && fresh(currentState)
      ensures currentState.Values() == Baseline(userProfile)
      ensures timeStep == 0 && episodeHistory == []
      ensures obs == Observation(Baseline(userProfile), userProfile)
    {
      currentState := new EnvironmentState(Baseline(userProfile));
      timeStep := 0;
      episodeHistory := [];
      obs := Observation(currentState.Values(), userProfile);
    }

    /** `_apply_action`: an action that does not unpack into seven components raises
        ValueError before any factor changes. */
    method ApplyAction(action: seq<real>) returns (r: Result<()>)
      requires currentState != null
      modifies currentState
      ensures r.Err? <==> |action| != ActionDims
      ensures r.Err? ==> r.error.ValueError? && currentState.Values() == old(currentState.Values())
      ensures r.Ok? ==> currentState.Values() == Adjusted(old(currentState.Values()), action)
    {
      if |action| != ActionDims {
        return Err(ValueError("expected 7 values to unpack"));
      }
      var s := currentState;
      s.temperature := Clip(s.temperature + action[0], TempMin, TempMax);
      s.lightIntensity := Clip(s.lightIntensity + action[1], 0.0, 1.0);
      s.lightColorTemp := Clip(s.lightColorTemp + action[2], 0.0, 1.0);
      s.noiseLevel := Clip(s.noiseLevel + action[3], 0.0, 1.0);
      s.noiseType := Clip(s.noiseType + action[4], 0.0, 1.0);
      s.humidity := Clip(s.humidity + action[5], HumidityMin, HumidityMax);
      s.airflow := Clip(s.airflow + action[6], 0.0, 1.0);
      r := Ok(());
    }

    /** `_update_sleep_metrics`. */
    method UpdateSleepMetrics()
      requires currentState != null
      modifies currentState
      ensures currentState.Values() == MetricsUpdated(old(currentState.Values()), userProfile)
    {
      var c := currentState.Values();
      var score := Clip(60.0 + EnvironmentalBonus(c, userProfile), 0.0, 100.0);
      currentState.sleepScore := score;
      currentState.fragmentation := Max(0.0, OrDefault(userProfile.baselineFragmentation, 15.0) - (score - 60.0) / 40.0 * 10.0);
      currentState.apneaRisk := Min(1.0, OrDefault(userProfile.baselineApneaRisk, 0.1) * ApneaModifier(c));
    }

    /** The part of `step` before the history record: action, time step, metrics, reward. */
    method Advance(action: seq<real>) returns (reward: real)
      requires Valid() && |action| == ActionDims
      modifies this, currentState
      ensures StateValid() && currentState == old(currentState)
      ensures timeStep == old(timeStep) + 1 && episodeHistory == old(episodeHistory)
      ensures currentState.Values() == Stepped(old(currentState.Values()), action, userProfile)
      ensures reward == Reward(currentState.Values(), userProfile)
    {
      var before := currentState.Values();
      var _ := ApplyAction(action);
      AdjustedMeaning(before, action);
      timeStep := timeStep + 1;
      currentState.timeStep := timeStep;
      UpdateSleepMetrics();
      reward := Reward(currentState.Values(), userProfile);
    }

    /** `step` as written: the history record holds the live state object itself. */
    method Step(action: seq<real>) returns (r: Result<StepOutcome>)
      requires Valid()
      modifies this, currentState
      ensures Valid() && currentState == old(currentState)
      ensures r.Err? <==> |action| != ActionDims
      ensures r.Err? ==> r.error.ValueError? && timeStep == old(timeStep) &&
                         episodeHistory == old(episodeHistory) && currentState.Values() == old(currentState.Values())
      ensures r.Ok? ==> timeStep == old(timeStep) + 1 &&
                        currentState.Values() == Stepped(old(currentState.Values()), action, userProfile)
      ensures r.Ok? ==> r.value.reward == Reward(currentState.Values(), userProfile) &&
                        -1.0 <= r.value.reward <= 1.0 &&
                        !r.value.terminated && r.value.truncated == (timeStep >= episodeLength) &&
                        r.value.observation == Observation(currentState.Values(), userProfile)
      ensures r.Ok? ==> 0.0 <= currentState.sleepScore <= 100.0 && currentState.fragmentation >= 0.0 &&
                        currentState.apneaRisk <= 1.0
      ensures r.Ok? ==> episodeHistory == old(episodeHistory) + [HistoryRecord(timeStep, currentState, action, r.value.reward)]
      ensures old(HistoryAliasesState()) ==> HistoryAliasesState()
    {
      if |action| != ActionDims {
        return Err(ValueError("expected 7 values to unpack"));
      }
      var before := currentState.Values();
      var reward := Advance(action);
      MetricsUpdatedBounds(Adjusted(before, action).(timeStep := before.timeStep + 1), userProfile);
      RewardMeaning(currentState.Values(), userProfile);
      episodeHistory := episodeHistory + [HistoryRecord(timeStep, currentState, action, reward)];
      r := Ok(StepOutcome(Observation(currentState.Values(), userProfile), reward, false, timeStep >= episodeLength));
    }

    /** `step` recording a copy of the state, so that each record keeps the values of
        its own step. */
    method StepCorrected(action: seq<real>) returns (r: Result<StepOutcome>)
      requires Valid()
      modifies this, currentState
      ensures Valid() && currentState == old(currentState)
      ensures r.Err? <==> |action| != ActionDims
      ensures r.Err? ==> r.error.ValueError? && timeStep == old(timeStep) &&
                         episodeHistory == old(episodeHistory) && currentState.Values() == old(currentState.Values())
      ensures r.Ok? ==> timeStep == old(timeStep) + 1 &&
                        currentState.Values() == Stepped(old(currentState.Values()), action, userProfile)
      ensures r.Ok? ==> r.value.reward == Reward(currentState.Values(), userProfile) &&
                        -1.0 <= r.value.reward <= 1.0 &&
                        !r.value.terminated && r.value.truncated == (timeStep >= episodeLength) &&
                        r.value.observation == Observation(currentState.Values(), userProfile)
      ensures r.Ok? ==> |episodeHistory| == |old(episodeHistory)| + 1 &&
                        episodeHistory[..|old(episodeHistory)|] == old(episodeHistory)
      ensures r.Ok? ==> var last := episodeHistory[|episodeHistory| - 1];
                        fresh(last.state) && last.state.Values() == currentState.Values() &&
                        last.timeStep == timeStep && last.action == action && last.reward == r.value.reward
    {
      if |action| != ActionDims {
        return Err(ValueError("expected 7 values to unpack"));
      }
      var before := currentState.Values();
      var reward := Advance(action);
      MetricsUpdatedBounds(Adjusted(before, action).(timeStep := before.timeStep + 1), userProfile);
      RewardMeaning(currentState.Values(), userProfile);
      var snapshot := new EnvironmentState(currentState.Values());
      episodeHistory := episodeHistory + [HistoryRecord(timeStep, snapshot, action, reward)];
      r := Ok(StepOutcome(Observation(currentState.Values(), userProfile), reward, false, timeStep >= episodeLength));
    }
  }

  /** A profile with a 20-degree preference and no baselines. */
  function SampleProfile(): UserProfile
  {
    UserProfile("sample", 16.0, 24.0, 20.0, 0.5, 0.5, 0.5, 0.5, None, None, None, None, None, None, None)
  }

  /** Two one-degree warming steps from the 20-degree baseline.  As written, the record
      of the first step reads 21 degrees right after that step but 22 after the next,
      because both records hold the live state; with copies it keeps 21. */
  method HistoryAliasingScenario() returns (firstRecordAtFirstStep: real, firstRecordLater: real, copiedFirstRecordLater: real)
    ensures firstRecordAtFirstStep == 21.0
    ensures firstRecordLater == 22.0
    ensures copiedFirstRecordLater == 21.0
  {
    var warmer := [1.0, 0.0, 0.0, 0.0, 0.0, 0.0, 0.0];
    var env := new SleepEnvironment(SampleProfile(), 100);
    var _ := env.Reset();
    var r1 := env.Step(warmer);
    firstRecordAtFirstStep := env.episodeHistory[0].state.temperature;
    var r2 := env.Step(warmer);
    firstRecordLater := env.episodeHistory[0].state.temperature;

    var fixed := new SleepEnvironment(SampleProfile(), 100);
    var _ := fixed.Reset();
    var c1 := fixed.StepCorrected(warmer);
    var c2 := fixed.StepCorrected(warmer);
    copiedFirstRecordLater := fixed.episodeHistory[0].state.temperature;
  }
}
