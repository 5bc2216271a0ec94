# SleepPilot core, modelled in Dafny

SleepPilot studies sleep apnea and sleep quality in three layers. This project models the rule-based core of those layers and proves what the code promises.

**Apnea diagnosis environments.**
- The first detection environment (`layer2RLdiagnosis-v1/apnea_env.py`) walks one patient's 10-second audio segments. Its actions are WAIT, DIAGNOSE and ESCALATE. It rewards a diagnosis by how well its confidence matches the truth, and its episode metrics are an AHI severity, accuracy and the expected calibration error (ECE).
- The second environment (`layer2RLdiagnosis-model-2/apnea_detection_env.py`) records every diagnosis with a placeholder confidence of 0.7. It has a wrapper that picks a patient by id.

**Metrics, configuration and loaders.**
- The metric utilities (`layer2RLdiagnosis-v1/utils.py`) cover the 10-bin ECE, per-patient aggregation, the AHI severity scale, timestamps and three feature normalisers with their inverse.
- The v1 configuration tables live in `config.py`.
- Two dataset loaders group, combine, split and assemble the per-patient arrays. One is `layer2RLdiagnosis-v1/data_loader.py`. The other, `layer2RLdiagnosis-model-2/data_loader.py`, also pads and segments audio clips.
- The custom-audio tester builds a report from an episode (`test_custom_audio.py`).
- The demo's reward and severity tables are in `demo.py`.

**Sleep environment and scoring.**
- The sleep-environment simulator (`layer3rl/sleep_environment.py`) is an object whose state is changed in place by each action.
- Two sleep-quality scorers are modelled:
  - the comprehensive one (`layer3rl/sleep_quality_scorer.py`);
  - the weighted one (`sleep_quality_scorer.py`, the same text as `layer1/sleep_quality_scorer.py`).
- The rule helpers of the recommendation engine (`layer3rl/recommendation_engine.py`) are modelled.
- So is the mock apnea diagnostic (`layer3rl/apnea_diagnosis.py`).

**How the model is built.**
- Each core file is one module.
- Code that changes state in place is modelled as Dafny classes and methods:
  - the environments;
  - the simulator;
  - the configuration;
  - the loops that build lists;
  - the in-place sort of the mock events.
- Each such method is proved against a function on values. The pure scorers and rule helpers are functions with lemmas.
- Python floats are `real`. Integer truncation (`int(x)`) is written out as truncation toward zero.
- Every division by zero or bad argument that would raise in Python is an `Err` value.
- Random draws, the trained agents' outputs, `np.std` and `np.median` are given as parameters.
- `_get_recommendation` in `demo.py` has the same text as the custom-audio tester's, so one function, `CustomAudio.GetRecommendation`, models both.

## Model

| member | source | states |
|---|---|---|
| EpisodeEnv.Positions | layer2RLdiagnosis-v1/apnea_env.py:45-49 | every position the patient mask selects is a row tagged with that patient |
| EpisodeEnv.PositionsExact | layer2RLdiagnosis-v1/apnea_env.py:45-49 | about `Positions`: the positions are strictly ascending and every row tagged with the patient is among them |
| EpisodeEnv.OrganizeByPatientExact | layer2RLdiagnosis-v1/apnea_env.py:39-50 | about `OrganizeByPatient`: the per-patient table has exactly the ids as keys; each record is non-empty, holds exactly that patient's rows, labels and row indices, in row order |
| EpisodeEnv.DistinctIds | layer2RLdiagnosis-v1/apnea_env.py:41-52 | every entry of the patient list is one of the ids |
| EpisodeEnv.DistinctIdsExact | layer2RLdiagnosis-v1/apnea_env.py:41-52 | about `DistinctIds`: the patient list holds each id exactly once |
| EpisodeEnv.DiagnoseRewardBounds | layer2RLdiagnosis-v1/apnea_env.py:111-127 | about `DiagnoseReward`: for a confidence in [0, 1] the reward is correctness - 0.5 (confidence - correctness)^2 + 0.1, the -0.5 floor never binds, and the reward lies in [-0.4, 1.1] |
| EpisodeEnv.CorrectDiagnosisEarnsMore | layer2RLdiagnosis-v1/apnea_env.py:105-127 | about `DiagnoseReward`: over the confidences a DIAGNOSE step can use ([0.3, 0.9]) a correct diagnosis earns at least 0.855 and a wrong one at most 0.055 |
| EpisodeEnv.AhiBandMonotone | layer2RLdiagnosis-v1/apnea_env.py:206-221 | about `AhiBand`: the six AHI bands lie in [0.1, 1] and never decrease as the AHI grows |
| EpisodeEnv.PredictionSumBinary | layer2RLdiagnosis-v1/apnea_env.py:191-195 | about `PredictionSum`: the number of predicted events lies in [0, n] and is 0 exactly when every prediction is 0 |
| EpisodeEnv.EventsPerHourMonotone | layer2RLdiagnosis-v1/apnea_env.py:197-204 | about `EventsPerHour`: over the same number of segments, more events give a higher AHI |
| EpisodeEnv.SeverityScoreMeaning | layer2RLdiagnosis-v1/apnea_env.py:183-221 | about `SeverityScore`: the severity is 0 exactly when no apnea is predicted (or nothing is), otherwise in [0.1, 1], and never lower for more predicted events over as many segments |
| EpisodeEnv.MatchCountAtMost | layer2RLdiagnosis-v1/apnea_env.py:245 | about `MatchCount`: the matching predictions are at most all of them |
| EpisodeEnv.AccuracyWithinUnit | layer2RLdiagnosis-v1/apnea_env.py:245 | about `Accuracy`: the accuracy lies in [0, 1] |
| EpisodeEnv.ApneaEventsExact | layer2RLdiagnosis-v1/apnea_env.py:266-274 | about `ApneaEvents` and `PredictionSum`: there is one event detail per predicted apnea, each naming a position whose prediction is 1 with that position's timestamp and confidence; the details are in strictly increasing position order, and every predicted apnea has its detail |
| EpisodeEnv.MetricsMeaning | layer2RLdiagnosis-v1/apnea_env.py:244-288 | about `MetricsOf`: accuracy, ECE, mean confidence and severity lie in [0, 1]; the event count equals the number of event details and is at most the number of predictions; each detail is a predicted apnea |
| EpisodeEnv.AccuracyIsMeanCorrectness | layer2RLdiagnosis-v1/apnea_env.py:112-130 | about `MatchCount` and `CorrectnessOf`: when each prediction is the one its confidence stands for, the number of matches is the sum of the recorded correctness values |
| EpisodeEnv.RecordsFacts | layer2RLdiagnosis-v1/apnea_env.py:129-147 | the recorded lists hold 0/1 predictions of confidences in [0.3, 0.9], and each event detail carries the label of the segment it diagnosed and the matching correctness |
| EpisodeEnv.ApneaDetectionEnv.constructor | layer2RLdiagnosis-v1/apnea_env.py:8-37 | the environment starts with the per-patient table and patient list of its rows, cursor 0 and five empty episode lists |
| EpisodeEnv.ApneaDetectionEnv.Observation | layer2RLdiagnosis-v1/apnea_env.py:80-84 | the observation is the current segment's features, or a zero vector of the feature width once the cursor is past the last segment |
| EpisodeEnv.ApneaDetectionEnv.Reset | layer2RLdiagnosis-v1/apnea_env.py:54-78 | with no patients, `randint(0, 0)` raises ValueError and nothing changes; otherwise reset selects the chosen patient, sets the cursor to 0, empties the five lists and returns the first segment and the (positive) segment count |
| EpisodeEnv.ApneaDetectionEnv.DiagnoseCurrent | layer2RLdiagnosis-v1/apnea_env.py:98-149 | a DIAGNOSE under the cursor appends one prediction, confidence, reward, timestamp (cursor x 10 before the advance) and event detail, and advances the cursor by one |
| EpisodeEnv.ApneaDetectionEnv.Step | layer2RLdiagnosis-v1/apnea_env.py:86-174 | WAIT advances the cursor; an in-range DIAGNOSE appends one entry to each list and advances; otherwise nothing is appended, ESCALATE pays -0.1 and the cursor stays; terminated iff ESCALATE or past the last segment; truncated iff the new cursor is still on a segment and at the length limit, so an ESCALATE can be both terminated and truncated |
| EpisodeEnv.ApneaDetectionEnv.LeadingLabels | layer2RLdiagnosis-v1/apnea_env.py:234-235 | the labels the metrics compare with are the patient's first n labels, one per prediction |
| EpisodeEnv.ApneaDetectionEnv.DiagnosedLabels | layer2RLdiagnosis-v1/apnea_env.py:99-101 | the labels of the segments actually diagnosed, one per prediction |
| EpisodeEnv.ApneaDetectionEnv.RecordedCorrectness | layer2RLdiagnosis-v1/apnea_env.py:139-147 | the correctness values the event details recorded, one per prediction |
| EpisodeEnv.ApneaDetectionEnv.CollectApneaEvents | layer2RLdiagnosis-v1/apnea_env.py:266-274 | the loop collects exactly the predicted apnea events in order |
| EpisodeEnv.ApneaDetectionEnv.MetricsAgainst | layer2RLdiagnosis-v1/apnea_env.py:244-288 | nothing without predictions; otherwise the metrics record of the episode against the given labels, its ECE computed by the bin loop |
| EpisodeEnv.ApneaDetectionEnv.GetEpisodeMetrics | layer2RLdiagnosis-v1/apnea_env.py:223-288 | empty without predictions; otherwise the metrics against the patient's first n labels, with ECE and accuracy in [0, 1] |
| EpisodeEnv.ApneaDetectionEnv.GetEpisodeMetricsCorrected | layer2RLdiagnosis-v1/apnea_env.py:223-288 | the metrics against the labels of the diagnosed segments, whose accuracy is the mean recorded correctness |
| EpisodeEnv.TwoSegmentTable | layer2RLdiagnosis-v1/apnea_env.py:39-52 | about `OrganizeByPatient` and `DistinctIds`: two rows of one patient give one record holding both rows with indices [0, 1] |
| EpisodeEnv.SingleDiagnosisAccuracy | layer2RLdiagnosis-v1/apnea_env.py:245 | about `Accuracy`: a 0 prediction against label 1 has accuracy 0, against label 0 accuracy 1 |
| EpisodeEnv.WaitThenDiagnoseScenario | layer2RLdiagnosis-v1/apnea_env.py:223-245 | waiting over segment 0 and correctly diagnosing segment 1 records correctness 1, yet the metrics as written report accuracy 0 and the corrected ones accuracy 1 |
| DetectionEnv.PlaceholderRewards | layer2RLdiagnosis-model-2/apnea_detection_env.py:116-124 | about `CalibrationReward`: with the fixed confidence 0.7 an apnea segment earns 0.91 and a normal one -0.49 |
| DetectionEnv.ResultsMeaning | layer2RLdiagnosis-model-2/apnea_detection_env.py:162-211 | about `ResultsOf`: apnea plus normal count is the number of diagnoses, the severity lies in [0, 1], and the ECE is the distance between 0.7 and the severity |
| DetectionEnv.ApneaDetectionEnv.constructor | layer2RLdiagnosis-model-2/apnea_detection_env.py:90-92 | the environment holds the segments, their labels and extracted features, at segment 0 with no diagnoses and not escalated |
| DetectionEnv.ApneaDetectionEnv.Reset | layer2RLdiagnosis-model-2/apnea_detection_env.py:86-102 | reset sets the segment index to 0 and clears the diagnoses and the escalation flag; with no features it then fails with IndexError, otherwise it returns the first features and the segment count |
| DetectionEnv.ApneaDetectionEnv.Step | layer2RLdiagnosis-model-2/apnea_detection_env.py:104-160 | WAIT and DIAGNOSE advance the index by one, ESCALATE does not and sets the flag with reward -0.1; DIAGNOSE appends one record of the pre-advance index with reward label - (0.7 - label)^2 and fails with IndexError past the last label; done iff ESCALATE or past the last segment, never truncated, zeros when done; with no features the step fails with IndexError where it reads the first observation |
| DetectionEnv.ApneaDetectionEnv.GetEpisodeResults | layer2RLdiagnosis-model-2/apnea_detection_env.py:162-191 | empty without diagnoses, otherwise the results of the recorded diagnoses |
| DetectionEnv.ApneaDetectionEnv.EpisodeResultsMeaning | layer2RLdiagnosis-model-2/apnea_detection_env.py:162-191 | about `ResultsOf`: with 0/1 labels the severity lies in [0, 1] and the ECE is the distance between 0.7 and the severity |
| DetectionEnv.CalculateEce | layer2RLdiagnosis-model-2/apnea_detection_env.py:193-211 | the bin loop computes the ten-bin calibration error, which lies in [0, 1] for labels in [0, 1] |
| DetectionEnv.ApneaDetectionEnvWrapper.constructor | layer2RLdiagnosis-model-2/apnea_detection_env.py:217-220 | the wrapper starts with the patient table and no current patient or environment |
| DetectionEnv.ApneaDetectionEnvWrapper.ResetPatient | layer2RLdiagnosis-model-2/apnea_detection_env.py:222-234 | an unknown id raises ValueError and changes nothing; a known id becomes the current patient with a fresh environment over its segments and labels |
| DetectionEnv.ApneaDetectionEnvWrapper.GetPatientIds | layer2RLdiagnosis-model-2/apnea_detection_env.py:236-238 | the ids listed are exactly the patients of the table, each once |
| MetricsUtils.CalculateEce | layer2RLdiagnosis-v1/utils.py:7-33 | a bin count below -1 is a ValueError from `linspace`; empty input divides by zero; otherwise the loop computes the binned calibration error, which is 0 for a bin count of -1 or 0 (no bins) and lies in [0, 1] for labels in [0, 1]; the predictions are not used |
| MetricsUtils.Field | layer2RLdiagnosis-v1/utils.py:60-64 | the extracted list has one entry per episode, the episode's value of that field |
| MetricsUtils.AggregatePatientMetrics | layer2RLdiagnosis-v1/utils.py:46-81 | empty for no episodes; otherwise the episode count and the event total |
| MetricsUtils.EventTotalBounds | layer2RLdiagnosis-v1/utils.py:76 | about `EventTotal`: with non-negative counts the total is non-negative and at least every episode's count |
| MetricsUtils.AggregateBounds | layer2RLdiagnosis-v1/utils.py:66-79 | about `AggregatePatientMetrics`: the means of per-episode values in [0, 1] lie in [0, 1], and the mean event count lies between 0 and the total |
| MetricsUtils.AggregateTwoEpisodes | layer2RLdiagnosis-v1/utils.py:66-79 | about `AggregatePatientMetrics`: accuracies 0.8 and 0.9 with 2 and 3 events aggregate to mean accuracy 0.85, 5 events, 2 episodes and 2.5 events per episode |
| MetricsUtils.SeverityScaleMonotone | layer2RLdiagnosis-v1/utils.py:125-142 | about `CalculateSeverityScale`: the Normal/Mild/Moderate/Severe scale never decreases as the AHI grows |
| MetricsUtils.SeverityScaleAgreesWithBands | layer2RLdiagnosis-v1/utils.py:135-142 | about `CalculateSeverityScale` and `AhiBand`: Normal and Mild coincide with the environment's two lowest severity bands, and Moderate and Severe with the higher ones |
| MetricsUtils.ExtractTimestamps | layer2RLdiagnosis-v1/utils.py:144-159 | a zero duration is an error; otherwise there is one timestamp per segment, the i-th being i times the duration |
| MetricsUtils.TimestampsEvenlySpaced | layer2RLdiagnosis-v1/utils.py:157-159 | about `ExtractTimestamps`: the timestamps start at 0, step by the segment duration and strictly increase |
| MetricsUtils.Column | layer2RLdiagnosis-v1/utils.py:173-174 | a column holds the j-th entry of every row |
| MetricsUtils.SeqMinMaxBounds | layer2RLdiagnosis-v1/utils.py:180-181 | about `SeqMin` and `SeqMax`: the column minimum and maximum bound every entry and are attained |
| MetricsUtils.RangeZeroIffConstant | layer2RLdiagnosis-v1/utils.py:182-183 | about `SeqMax` and `SeqMin`: a column's range is zero exactly when the column is constant |
| MetricsUtils.ColumnMins | layer2RLdiagnosis-v1/utils.py:180 | one minimum per column |
| MetricsUtils.ColumnMaxs | layer2RLdiagnosis-v1/utils.py:181 | one maximum per column |
| MetricsUtils.Difference | layer2RLdiagnosis-v1/utils.py:182 | the element-wise difference of two vectors |
| MetricsUtils.NonZeroSpread | layer2RLdiagnosis-v1/utils.py:175 | every zero spread becomes a non-zero one and every non-zero spread is kept |
| MetricsUtils.ReplaceZeroSpread | layer2RLdiagnosis-v1/utils.py:175 | the in-place overwrite leaves the array equal to the spread with zeros replaced by 1 |
| MetricsUtils.Rescaled | layer2RLdiagnosis-v1/utils.py:176 | each entry becomes (x - centre) / spread for its column |
| MetricsUtils.ParseMethod | layer2RLdiagnosis-v1/utils.py:194-195 | only 'standard', 'minmax' and 'robust' are accepted; anything else is a ValueError |
| MetricsUtils.Normalization | layer2RLdiagnosis-v1/utils.py:161-197 | an unknown method is a ValueError; with no rows, 'minmax' is the ValueError of `np.min` and the other two fail (nan parameters, reported as ZeroDivisionError) unless there are no columns either; otherwise the result has the rows' shape and parameters of the feature width |
| MetricsUtils.NormalizeFeatures | layer2RLdiagnosis-v1/utils.py:161-197 | the method, which overwrites zero spreads in place, returns the normalisation |
| MetricsUtils.Divide | layer2RLdiagnosis-v1/utils.py:213-217 | the division fails exactly when there are rows and some column's divisor is zero (numpy's inf or nan is reported as ZeroDivisionError) |
| MetricsUtils.ApplyNormalization | layer2RLdiagnosis-v1/utils.py:199-219 | a method name other than the three is a ValueError (the successful cases are stated by NormalizationRoundTrip) |
| MetricsUtils.NormalizationRoundTrip | layer2RLdiagnosis-v1/utils.py:172-217 | about `Normalization` and `ApplyNormalization`: for 'standard' and 'robust' applying the returned parameters reproduces the normalised rows; for 'minmax' it does so exactly when no column is constant |
| MetricsUtils.MinMaxWithinUnit | layer2RLdiagnosis-v1/utils.py:179-185 | about `Normalization`: when min-max normalisation succeeds (there are rows), its entries lie in [0, 1], and a constant column becomes zeros |
| Calibration.BinStatistics | layer2RLdiagnosis-v1/utils.py:27-30 | one pass over the samples yields the count, confidence sum and label sum of the samples whose confidence lies in the bin |
| Calibration.BinnedGapTotal | layer2RLdiagnosis-v1/utils.py:25-31 | the loop over the bins adds up count x the distance between mean confidence and mean label over the non-empty bins |
| Calibration.BinsPartitionUnitInterval | layer2RLdiagnosis-v1/utils.py:21-27 | about `BinsContaining`: the half-open bins partition (0, 1]: a confidence in (0, 1] lies in exactly one bin, any other value (0 included) in none |
| Calibration.BinsExclusive | layer2RLdiagnosis-v1/utils.py:27 | no confidence lies in two different bins |
| Calibration.TotalBinCountIsInUnitInterval | layer2RLdiagnosis-v1/utils.py:26-28 | about `TotalBinCount`: the bin counts add up to the number of confidences in (0, 1], at most the sample count |
| Calibration.BinGapWithinCount | layer2RLdiagnosis-v1/utils.py:28-31 | about `BinGap`: with labels in [0, 1] a bin contributes between 0 and its own count |
| Calibration.GapTotalBounded | layer2RLdiagnosis-v1/utils.py:25-31 | about `GapTotal`: with labels in [0, 1] the summed contributions lie between 0 and the sample count |
| Calibration.EceBounded | layer2RLdiagnosis-v1/utils.py:7-33 | with labels in [0, 1] the calibration error lies in [0, 1] |
| Calibration.ConstantConfidenceGap | layer2RLdiagnosis-v1/utils.py:26-33 | when every sample has the same confidence c in some bin, the calibration error is the distance between c and the mean label |
| UserProfiles.OrDefault | layer3rl/sleep_environment.py:112-114 | Python's `value or default`: a present non-zero value is kept, a missing or zero one becomes the default |
| SleepSimulator.EnvironmentState.constructor | layer3rl/sleep_environment.py:18-35 | a new state object holds exactly the given factor, metric and time-step values |
| SleepSimulator.Baseline | layer3rl/sleep_environment.py:104-116 | the reset state has every factor within its bounds and time step 0 |
| SleepSimulator.AdjustedMeaning | layer3rl/sleep_environment.py:160-200 | about `Adjusted`: after an action every factor is within its bounds, a factor whose requested value is in range takes exactly that value, and the metrics and time step are untouched |
| SleepSimulator.MetricsUpdatedBounds | layer3rl/sleep_environment.py:202-255 | about `MetricsUpdated`: the recomputed score lies in [0, 100], fragmentation in [0, baseline + 15], the apnea risk is at most 1, and nothing but the three metrics changes |
| SleepSimulator.ApneaRiskMeaning | layer3rl/sleep_environment.py:243-255 | about `MetricsUpdated`: the apnea risk lies between the baseline and 1.3 times it (capped at 1), and equals the baseline exactly when the temperature is in [15, 25] and the humidity at most 0.7 |
| SleepSimulator.ScoreFromFactors | layer3rl/sleep_environment.py:204-241 | about `MetricsUpdated`: with factors in range and sensitivities in [0, 1] the score is 60 plus the environmental bonus and lies in [60, 100], so the clip never binds and fragmentation never exceeds its baseline |
| SleepSimulator.ProductWithinUnit | layer3rl/sleep_environment.py:209-212 | the product of two numbers in [0, 1] lies in [0, 1] |
| SleepSimulator.RewardMeaning | layer3rl/sleep_environment.py:257-291 | about `CalibrationReward`: the reward lies in [-1, 1], never exceeds the score's share of 100 when risk and fragmentation are non-negative, and equals that share in a comfortable room at zero risk and fragmentation |
| SleepSimulator.Observation | layer3rl/sleep_environment.py:293-312 | the observation has 16 entries, its seven factors lie within the observation bounds when the state is in range, and entries 10 and 11 are the time step and the preferred temperature |
| SleepSimulator.OptimalSettingsMaximiseScore | layer3rl/sleep_environment.py:328-344 | about `GetOptimalSettings` and `MetricsUpdated`: a room set to the optimal settings reaches the score 100 (that no room exceeds 100 is the clip in `MetricsUpdated`) |
| SleepSimulator.SleepEnvironment.constructor | layer3rl/sleep_environment.py:46-92 | the environment keeps the profile and episode length and starts with no state, time step 0 and an empty history |
| SleepSimulator.SleepEnvironment.Reset | layer3rl/sleep_environment.py:94-121 | reset installs a fresh state with the baseline values, time step 0 and an empty history, and returns its observation |
| SleepSimulator.SleepEnvironment.ApplyAction | layer3rl/sleep_environment.py:160-200 | an action of other than seven components is a ValueError and changes nothing; otherwise the state's factors become the clipped adjusted ones |
| SleepSimulator.SleepEnvironment.UpdateSleepMetrics | layer3rl/sleep_environment.py:202-255 | the state's metrics become those recomputed from its factors and the profile |
| SleepSimulator.SleepEnvironment.Advance | layer3rl/sleep_environment.py:133-144 | one step applies the action, increments the time step, recomputes the metrics and returns the reward of the new state |
| SleepSimulator.SleepEnvironment.Step | layer3rl/sleep_environment.py:123-158 | a malformed action is a ValueError that changes nothing; otherwise the state is the stepped one, the reward lies in [-1, 1], the episode never terminates and is truncated at the episode length, and the history gains one record that holds the live state object itself |
| SleepSimulator.SleepEnvironment.StepCorrected | layer3rl/sleep_environment.py:150-156 | the same step, but the history gains a record holding a fresh copy of the new state's values, which later steps cannot change |
| SleepSimulator.HistoryAliasingScenario | layer3rl/sleep_environment.py:150-156 | after two one-degree warming steps the first record reads 21 degrees right after its step but 22 after the next as written, and keeps 21 when it holds a copy |
| ComprehensiveScorer.Clamp100 | layer3rl/sleep_quality_scorer.py:147 | the clamped value lies in [0, 100] and a value already in range is kept |
| ComprehensiveScorer.DurationPointsUnimodal | layer3rl/sleep_quality_scorer.py:115-124 | about `DurationPoints`: the duration points never fall on the way up to 7 hours and never rise after 9, and the full 30 points are earned exactly for 7 to 9 hours |
| ComprehensiveScorer.UserInputScoreMeaning | layer3rl/sleep_quality_scorer.py:109-147 | about `UserInputScore`: the score exists exactly for a known stress level and exercise (KeyError naming the stress level first, then the exercise), lies in [0, 100], and is at least 10 for non-negative ratings |
| ComprehensiveScorer.AudioScoreMonotone | layer3rl/sleep_quality_scorer.py:149-184 | about `AudioScore`: the audio score lies in [0, 100]; a longer latency or more wake-ups never raise it, a higher efficiency never lowers it |
| ComprehensiveScorer.ApneaEventPenaltyMonotone | layer3rl/sleep_quality_scorer.py:193-204 | about `ApneaEventPenalty`: the event deduction lies in [0, 40] and never falls as the event count grows |
| ComprehensiveScorer.ApneaHealthScoreMonotone | layer3rl/sleep_quality_scorer.py:186-226 | about `ApneaHealthScore`: the health score lies in [0, 100], never rises with more events or a higher AHI, and never falls with more oxygen or more regular breathing |
| ComprehensiveScorer.SleepEventsScoreMonotone | layer3rl/sleep_quality_scorer.py:228-269 | about `SleepEventsScore`: a night without events scores 100; more of any event never raises the score, which stays at least 0 |
| ComprehensiveScorer.SleepEventsScoreUpperBound | layer3rl/sleep_quality_scorer.py:246-269 | about `SleepEventsScore`: with non-negative snoring the score is at most 100; since only the lower bound is clamped, a snoring intensity of -1 scores 130 |
| ComprehensiveScorer.RecommendationsMeaning | layer3rl/sleep_quality_scorer.py:271-306 | about `GetRecommendations`: apnea screening is advised exactly above 15 events, stress reduction exactly for high stress, at most six pieces of advice are given and the two duration pieces never together |
| ComprehensiveScorer.RiskFactorsMeaning | layer3rl/sleep_quality_scorer.py:308-335 | about `IdentifyRiskFactors` and `GenerateRecommendations`: the elevated-apnea risk is named exactly above 15 events and high stress exactly when stress advice is given; at most five risks; a suboptimal duration always comes with duration advice |
| ComprehensiveScorer.ConfidenceBounds | layer3rl/sleep_quality_scorer.py:337-365 | about `CalculateConfidence`: the confidence lies in [0.5, 0.95], and a zero among the four inputs caps it at the mean of 0.5, 0.95 and 0.9 |
| ComprehensiveScorer.OverallScoreMeaning | layer3rl/sleep_quality_scorer.py:367-420 | about `ScoreSleepQuality`: the weights sum to 1; the overall score lies in [0, 100] within 2 points of the weighted sum, equals it without variation, and the weighted sum lies between the smallest and largest component |
| ComprehensiveScorer.ScoreCategoryMonotone | layer3rl/sleep_quality_scorer.py:422-433 | about `GetScoreCategory`: the category never falls as the score rises; excellent exactly from 90 and poor exactly below 60 |
| SleepQualityScorer.NewScorer | sleep_quality_scorer.py:42-70 | construction succeeds exactly when the given (or default) weights sum to 1 within 1e-6, keeping those weights; otherwise it is a ValueError |
| SleepQualityScorer.DefaultScorerBuilds | layer1/sleep_quality_scorer.py:49-59 | about `NewScorer`: the default weights 0.25, 0.25, 0.30 and 0.20 sum to 1, so the default scorer is built |
| SleepQualityScorer.DurationScoreMeaning | sleep_quality_scorer.py:72-98 | about `DurationScore`: the duration score lies in [0, 100], is 0 for no sleep or 12 hours and more, is 100 exactly for 7 to 9 hours, is 100 x hours / 7 below 7 hours, and meets 100 at both ends of the plateau |
| SleepQualityScorer.DurationScoreMonotone | sleep_quality_scorer.py:82-98 | about `DurationScore`: the duration score never falls on the way up to 7 hours and never rises after 9 |
| SleepQualityScorer.EventsScoreMeaning | sleep_quality_scorer.py:100-120 | about `EventsScore`: with non-negative counts the events score lies in [0, 100], is 100 exactly when there are no events, 0 once every count reaches its threshold, and 50 for ten or more apnea events alone |
| SleepQualityScorer.EventsScoreMonotone | sleep_quality_scorer.py:100-120 | about `EventsScore`: more events of any kind never raise the events score |
| SleepQualityScorer.NormalizeRating | sleep_quality_scorer.py:122-133 | a scale of 0 is a division by zero; otherwise the result times the scale is 100 times the rating |
| SleepQualityScorer.NormalizeRatingOnTen | sleep_quality_scorer.py:122-133 | about `NormalizeRating`: on the default scale of 10, ratings 1 to 10 map to 10 to 100 in steps of 10 |
| SleepQualityScorer.CalculateSleepQualityScore | sleep_quality_scorer.py:135-177 | the overall score lies in [0, 100]; the component map has exactly the five keys, its overall entry is the overall score, and its duration and events entries are those scores |
| SleepQualityScorer.DefaultOverallUnclamped | sleep_quality_scorer.py:159-167 | about `CalculateSleepQualityScore`: with the default weights, non-negative counts and ratings in 0 to 10, the clamp never binds and the overall score is the weighted sum of the components |
| SleepQualityScorer.QualityCategoryMonotone | sleep_quality_scorer.py:179-198 | about `GetQualityCategory`: the category never falls as the score rises; Excellent exactly from 90, Good exactly in [80, 90), Very Poor exactly below 60 |
| SleepQualityScorer.RecommendationsMeaning | sleep_quality_scorer.py:200-234 | about `GetRecommendations`: recommendations exist exactly when the four component keys do; at most four are given, the two duration items exclude each other, so do the two events items, and sleep hygiene is advised exactly for a sleep rating below 70 |
| SleepQualityScorer.ScorerComponentsRecommend | layer1/sleep_quality_scorer.py:169-175 | about `GetRecommendations` and `CalculateSleepQualityScore`: the component map the scorer returns always yields recommendations |
| Recommendations.PriorityFactorsMeaning | layer3rl/recommendation_engine.py:227-247 | about `PriorityFactors`: the factors start with temperature and number one to three; light control is listed exactly for a light sensitivity below 0.3 and noise management exactly for a noise tolerance below 0.3, both surviving the cut to three |
| Recommendations.PrefixKept | layer3rl/recommendation_engine.py:247 | keeping the first three of a list whose head has one to three entries keeps that whole head and only entries of the list |
| Recommendations.SettingRisksMeaning | layer3rl/recommendation_engine.py:249-269 | about `SettingRisks`: each of the four risks is named exactly when its threshold is crossed (temperature outside [15, 25], light above 0.3, noise above 0.6, humidity above 0.7), so at most four |
| Recommendations.ImplementationNotesMeaning | layer3rl/recommendation_engine.py:271-290 | about `ImplementationNotes`: a temperature note appears exactly more than 3 degrees from 20 and carries that distance; the darkness note exactly below 0.1 and the curtains note exactly above 0.2, never both; the noise note exactly for a noise type below 0.5 |
| Recommendations.TemperatureScheduleMeaning | layer3rl/recommendation_engine.py:292-315 | about `TemperatureSchedule`: four steps, none cooler than the optimal temperature, which is reached at 23:00 |
| Recommendations.LightScheduleMeaning | layer3rl/recommendation_engine.py:317-344 | about `LightSchedule`: four steps at 20:00, 21:00, 22:00 and 06:00; for inputs in [0, 1] every intensity and colour temperature stays in [0, 1], and the light dims until 22:00 |
| Recommendations.NoiseTypePartition | layer3rl/recommendation_engine.py:371-380 | about `NoiseTypeToString`: white, pink, nature and fan cover exactly [.., 0.25), [0.25, 0.5), [0.5, 0.75) and [0.75, ..), in that order as the value rises |
| Recommendations.NoiseScheduleMeaning | layer3rl/recommendation_engine.py:346-369 | about `NoiseSchedule` and `NoiseTypeToString`: three steps, the chosen noise kind twice and then "none" at 06:00; for a level in [0, 1] every level stays in [0, 1] |
| Recommendations.SleepScoreCategoryMonotone | layer3rl/recommendation_engine.py:454-465 | about `CategorizeSleepScore`: the category never falls as the score rises; excellent exactly from 80, very poor exactly below 50 |
| Recommendations.ImprovementPotentialMonotone | layer3rl/recommendation_engine.py:485-494 | about `ImprovementPotential`: a better baseline never means more potential; without a baseline it is moderate; high exactly below 60 |
| Recommendations.RiskCategoryMonotone | layer3rl/recommendation_engine.py:513-520 | about `CategorizeRisk`: the risk level never falls as the value rises; low exactly below 0.1, high exactly from 0.25 |
| Recommendations.AssessRisksDefaults | layer3rl/recommendation_engine.py:496-511 | about `AssessRisks`: without baselines the apnea risk 0.1 rates moderate while the default fragmentation 15 already rates high; a fragmentation rates high exactly from 12.5 |
| Recommendations.OverallConfidenceBounds | layer3rl/recommendation_engine.py:548-570 | about `OverallConfidence`: the overall confidence never exceeds 0.95, is at least 0.24 for inputs in [0, 1], and never falls as the base confidence or the completeness rises |
| Recommendations.ProfileCompletenessBounds | layer3rl/recommendation_engine.py:572-590 | about `ProfileCompleteness` and `OverallConfidence`: the completeness lies in [0.7, 1] and is 1 exactly when all seven optional fields are set, so for a base confidence in [0, 1] the overall confidence lies in [0.38, 0.95] |
| Recommendations.ExportFormatMeaning | layer3rl/recommendation_engine.py:592-608 | about `ExportFormatOf`: only "json" and "dict" are accepted; any other format is a ValueError |
| MockDiagnostic.SortByTimestamp | layer3rl/apnea_diagnosis.py:95-96 | the in-place sort leaves the events ordered by timestamp, a permutation of the original, with distinct timestamps kept distinct |
| MockDiagnostic.InsertIntoSorted | layer3rl/apnea_diagnosis.py:96 | moving one event down into a sorted prefix extends the sorted prefix by one and permutes the array |
| MockDiagnostic.Swap | layer3rl/apnea_diagnosis.py:96 | exchanging two events changes nothing else and permutes the array |
| MockDiagnostic.GenerateMockApneaEvents | layer3rl/apnea_diagnosis.py:64-99 | a night of fewer than four whole seconds is the ValueError of `np.random.choice` (no population, or too small a one without replacement); otherwise exactly four events, exactly the drawn ones, with strictly increasing timestamps inside the night, durations in [15, 45) and oxygen drops in [2, 8) |
| MockDiagnostic.CalculateAhi | layer3rl/apnea_diagnosis.py:101-108 | a night of zero hours is a division by zero; otherwise the AHI times the hours is the number of events, non-negative for a positive night |
| MockDiagnostic.MaxDrop | layer3rl/apnea_diagnosis.py:121 | the largest oxygen drop bounds every event's drop and is some event's drop |
| MockDiagnostic.OxygenDesaturationMeaning | layer3rl/apnea_diagnosis.py:110-126 | about `OxygenDesaturation`: 98 without events; otherwise 98 less some event's drop and at most 98 less every drop, so at most 98 for non-negative drops |
| MockDiagnostic.SnoringIntensityBounds | layer3rl/apnea_diagnosis.py:128-142 | about `SnoringIntensity`: with events the intensity is the mean severity weight, in [0.3, 0.9], and 0.3 when every event is mild |
| MockDiagnostic.BreathingRegularity | layer3rl/apnea_diagnosis.py:144-158 | a division by zero exactly when there are events and the night has zero hours |
| MockDiagnostic.BreathingRegularityMeaning | layer3rl/apnea_diagnosis.py:144-158 | about `BreathingRegularity`: for a positive night the regularity lies in [0.3, 0.95], never rises with more events, and is the floor 0.3 from 10 events an hour |
| MockDiagnostic.RiskLevelMeaning | layer3rl/apnea_diagnosis.py:160-169 | about `DetermineRiskLevel`: low exactly for an AHI below 5 with oxygen above 95; medium exactly when not low, with an AHI below 15 and oxygen above 90; high exactly for an AHI from 15 or oxygen at most 90 |
| MockDiagnostic.ConfidenceMeaning | layer3rl/apnea_diagnosis.py:171-194 | about `CalculateConfidence`: without events the confidence is its base; with a non-negative spread it lies between a tenth of the base and the base, equals the base for equal durations, and a longer night never lowers the base |
| MockDiagnostic.DiagnosisBounds | layer3rl/apnea_diagnosis.py:205-224 | about `DiagnosisOf` and `DetermineRiskLevel`: for events whose drops lie in [2, 8), the diagnosis counts them, has no hypopneas, AHI x hours = the count, oxygen in (90, 96], snoring in [0.3, 0.9], regularity in [0.3, 0.95], the risk level of its AHI and oxygen, and confidence in [0.07, 0.9] |
| MockDiagnostic.DiagnoseSleepApnea | layer3rl/apnea_diagnosis.py:196-227 | a night of fewer than four whole seconds is a ValueError from the event draw; otherwise the diagnosis holds the four drawn events in timestamp order with AHI x hours = 4, oxygen in (90, 96], snoring in [0.3, 0.9], regularity in [0.3, 0.95], the matching risk level and confidence in [0.07, 0.9] |
| CustomAudio.ClassifiersAgree | layer2RLdiagnosis-model-2/test_custom_audio.py:141-165 | about `GetRecommendation` and `GetSeverityLevel`: the recommendation is the advice of the severity level, the level never falls as the severity grows, and two severities get the same recommendation exactly when they get the same level |
| CustomAudio.ReliabilityOf | layer2RLdiagnosis-model-2/test_custom_audio.py:126 | the reliability is High exactly below an ECE of 0.1 and Low exactly from 0.2 on |
| CustomAudio.AnalyzeEvents | layer2RLdiagnosis-model-2/test_custom_audio.py:108-120 | the events loop builds the events of the diagnoses as written, each stamped with its position among the diagnoses |
| CustomAudio.EventsByPositionMeaning | layer2RLdiagnosis-model-2/test_custom_audio.py:108-120 | about `EventsByPosition`: every event comes from a diagnosis record whose ground-truth label is 1, carries its confidence and the segment duration, and every such record has its event; with no such record there is no event |
| CustomAudio.EventsBySegment | layer2RLdiagnosis-model-2/test_custom_audio.py:108-120 | with the intended stamp, every event is timed at the start of the segment it names, and that segment's record carries the ground-truth label 1 |
| CustomAudio.PositionMisplacesEvent | layer2RLdiagnosis-model-2/test_custom_audio.py:109-111 | about `EventsByPosition` and `EventsBySegment`: an apnea found in the second 10-second segment after a WAIT is reported at 0 s as written and at 10 s as intended |
| CustomAudio.EventsAgreeWithoutWaits | layer2RLdiagnosis-model-2/test_custom_audio.py:109-111 | about `EventsByPosition` and `EventsBySegment`: when every segment up to the last diagnosis was diagnosed, the written and the intended events coincide |
| CustomAudio.AnalyzeResults | layer2RLdiagnosis-model-2/test_custom_audio.py:88-139 | the audio info is the segment count times the segment duration; no results give no events and empty confidence and severity parts; otherwise the events, the reliability of the ECE and the severity level with its recommendation |
| CustomAudio.TestAudioFile | layer2RLdiagnosis-model-2/test_custom_audio.py:51-86 | without an agent a ValueError; an unreadable clip or a negative segment length an empty result; a zero segment length a division by zero; otherwise one segment, labelled 0, so no event, a Very Low severity and Low reliability |
| CustomAudio.NoApneaResults | layer2RLdiagnosis-model-2/test_custom_audio.py:75-81 | about `ResultsOf`: on an episode whose labels are all 0 every diagnosis is labelled 0, the severity is 0 and the ECE is the whole placeholder confidence 0.7 |
| DatasetLoader.PatientId | layer2RLdiagnosis-model-2/data_loader.py:97-98 | the patient id is the prefix of the file name before its first underscore, or the whole name when it has none |
| DatasetLoader.GroupFiles | layer2RLdiagnosis-model-2/data_loader.py:93-107 | the grouping loop over the apnea then normal files builds the grouping of their concatenation |
| DatasetLoader.GroupedKeys | layer2RLdiagnosis-model-2/data_loader.py:95-101 | about `Grouped` and `PatientId`: the patients are exactly the ids of the given names, each listed once in order of first appearance |
| DatasetLoader.GroupedSlots | layer2RLdiagnosis-model-2/data_loader.py:100-106 | about `Grouped` and `PatientId`: a filled apnea slot holds one of the patient's names containing _ap.npy, a filled normal slot one containing _nap.npy but not _ap.npy, and a slot stays empty exactly when no such name was given |
| DatasetLoader.LoadPatientMeaning | layer2RLdiagnosis-model-2/data_loader.py:113-135 | about `LoadPatient`: loading succeeds exactly for arrays of equal width; the shuffle moves each segment with its label, the label being 1 exactly for a segment from the apnea file, and the counts are the two files' row counts |
| DatasetLoader.LoadPatients | layer2RLdiagnosis-model-2/data_loader.py:108-139 | the loading loop over the grouped patients builds the loaded table |
| DatasetLoader.LoadedTableMeaning | layer2RLdiagnosis-model-2/data_loader.py:110-139 | about `LoadedTable`: the loaded patients are exactly the visited ones whose two files are present and load, each listed once and each record well formed |
| DatasetLoader.GetPatientData | layer2RLdiagnosis-model-2/data_loader.py:143-145 | a record is returned exactly for a loaded patient, and it is that patient's record |
| DatasetLoader.GetPatientStatistics | layer2RLdiagnosis-model-2/data_loader.py:151-188 | an empty table gives all-zero statistics; otherwise the totals over the loaded patients |
| DatasetLoader.TotalsMeaning | layer2RLdiagnosis-model-2/data_loader.py:162-186 | about `Totals`: the segment total is the apnea total plus the normal total, the patient count is the table size, every patient has its detail line and each apnea ratio lies in [0, 1] |
| DatasetLoader.CreateEnvironmentData | layer2RLdiagnosis-model-2/data_loader.py:220-232 | the loop builds the segment and label pairs of the listed patients, patient by patient, skipping unknown ids |
| DatasetLoader.EnvironmentPairsMeaning | layer2RLdiagnosis-model-2/data_loader.py:225-229 | about `EnvironmentPairs`: every pair is a segment of a listed, loaded patient with its own label, which is 0 or 1 |
| DatasetLoader.EnvironmentPairsLength | layer2RLdiagnosis-model-2/data_loader.py:220-232 | about `EnvironmentPairs` and `SegmentTotal`: there is exactly one pair per segment of every listed, loaded patient: unknown ids add none, repeated ids add their segments again |
| DatasetLoader.EnvironmentPairsCount | layer2RLdiagnosis-model-2/data_loader.py:220-232 | about `EnvironmentPairs`: when each listed patient has n segments there are the number of patients times n pairs |
| DatasetLoader.GetSampleAudioMeaning | layer2RLdiagnosis-model-2/data_loader.py:313-322 | about `GetSampleAudio`: nothing for an unknown patient or an index at or past the end; the segment with its label for an index Python accepts, counting a negative one from the end; an IndexError before the start |
| DatasetLoader.PreprocessMeaning | layer2RLdiagnosis-model-2/data_loader.py:339-347 | about `Preprocess`: for a non-negative length the clip becomes exactly that long, keeping its start and padding with zeros; a negative length cuts from the end as Python slicing does |
| DatasetLoader.PreprocessIdempotent | layer2RLdiagnosis-model-2/data_loader.py:333-347 | about `Preprocess`: preprocessing a preprocessed clip changes nothing |
| DatasetLoader.SegmentAudio | layer2RLdiagnosis-model-2/data_loader.py:349-364 | a zero segment length divides by zero, a negative one gives no segment, and a positive one gives the full chunks of the preprocessed clip, which are exactly that one clip |
| DatasetLoader.FullChunksMeaning | layer2RLdiagnosis-model-2/data_loader.py:355-364 | about `FullChunks`: every kept chunk is full length, and together they spell the start of the clip, leaving less than one segment over |
| DatasetLoader.SegmentOfPreprocessed | layer2RLdiagnosis-model-2/data_loader.py:352-364 | about `FullChunks` and `Preprocess`: a preprocessed clip is cut into exactly one segment, itself |
| PsgLoader.CombinePatientMeaning | layer2RLdiagnosis-v1/data_loader.py:58-78 | about `CombinePatient`: combining succeeds exactly for equal widths; the rows are the apnea rows above the normal ones, the labels are that many ones then zeros, and a 1-D file counts as one row |
| PsgLoader.LoadPreprocessedData | layer2RLdiagnosis-v1/data_loader.py:42-91 | the loop over the folders builds the loaded data and counts its rows |
| PsgLoader.LoadedDataMeaning | layer2RLdiagnosis-v1/data_loader.py:45-91 | about `LoadedData`: a patient is loaded exactly when a folder of that name has both files with stackable arrays, and every loaded entry is well formed |
| PsgLoader.CreatePatientWiseSplits | layer2RLdiagnosis-v1/data_loader.py:93-121 | as written: a ValueError exactly when the ratios do not sum to 1 within 1e-6 |
| PsgLoader.NegativeRatioOverlaps | layer2RLdiagnosis-v1/data_loader.py:107-117 | about `CreatePatientWiseSplits`: four patients at ratios -0.5, 0.75 and 0.75 pass the check as written and put the second patient in both the train and the test list |
| PsgLoader.CreatePatientWiseSplitsChecked | layer2RLdiagnosis-v1/data_loader.py:102-117 | with the intended guard, a ValueError exactly for a bad sum or a negative ratio |
| PsgLoader.SplitsAgreeOnNonNegativeRatios | layer2RLdiagnosis-v1/data_loader.py:102-117 | about `CreatePatientWiseSplits` and `CreatePatientWiseSplitsChecked`: for non-negative ratios the split as written and the checked split give the same result, error or not |
| PsgLoader.CheckedSplitsPartition | layer2RLdiagnosis-v1/data_loader.py:112-117 | about `CreatePatientWiseSplitsChecked`: a successful split of distinct ids gives three pairwise disjoint lists whose concatenation is the shuffled order, a permutation of the ids |
| PsgLoader.SplitSizes | layer2RLdiagnosis-v1/data_loader.py:107-117 | about `CreatePatientWiseSplitsChecked`: for non-negative ratios summing to 1 the train and validation sizes are int(n x ratio) and the test list takes the rest |
| PsgLoader.SplitSizesOfExamples | layer2RLdiagnosis-v1/data_loader.py:107-109 | about `CreatePatientWiseSplitsChecked`: five patients at 0.6, 0.2 and 0.2 split 3, 1 and 1, and twenty at 0.7, 0.15 and 0.15 split 14, 3 and 3 |
| PsgLoader.PrepareFeaturesFromPreprocessed | layer2RLdiagnosis-v1/data_loader.py:123-151 | a ValueError exactly when no listed patient is found or the found rows differ in width; otherwise the rows, labels and per-row ids of the listed patients in list order |
| PsgLoader.GatheredMeaning | layer2RLdiagnosis-v1/data_loader.py:129-142 | about `Gathered`: there is one label and one patient id per row, every id is a listed and loaded patient, and no patient found gives nothing |
| PsgLoader.GatheredRowCount | layer2RLdiagnosis-v1/data_loader.py:129-147 | about `Gathered`: when each listed patient has k apnea and k normal rows, the rows number patients x k x 2 |
| Demo.RewardMeaning | layer2RLdiagnosis-model-2/demo.py:155-157 | about `CalibrationReward`: the reward never exceeds the correctness and equals it when the confidence matches; for a 0/1 correctness and a confidence in [0, 1] it lies in [-1, 1], rising with the confidence on a correct answer and falling on a wrong one |
| Demo.ScenarioRewards | layer2RLdiagnosis-model-2/demo.py:143-157 | one reward per scenario, each the calibration reward of that scenario's correctness and confidence |
| Demo.ScenarioRewardValues | layer2RLdiagnosis-model-2/demo.py:143-161 | about `ScenarioRewards`: the five scenarios earn 0.99, 0.75, -0.01, -0.81 and 1 |
| Demo.SeveritySamplesMatch | layer2RLdiagnosis-model-2/demo.py:170-181 | about `GetSeverityLevel` and `GetRecommendation`: every sample score falls in the level it is labelled with, its recommendation is that level's advice, and the five recommendations differ |
| Config.DefaultsShape | layer2RLdiagnosis-v1/config.py:6-147 | about `Defaults`: the defaults include the fourteen named sections, the feature dimension is 4096 and there are 10 confidence bins |
| Config.DefaultsKeys | layer2RLdiagnosis-v1/config.py:6-147 | about `Defaults`: the defaults hold exactly the fourteen named sections and no other |
| Config.Configuration.constructor | layer2RLdiagnosis-v1/config.py:6-166 | the module as imported holds the default sections |
| Config.Updated | layer2RLdiagnosis-v1/config.py:168-174 | an update keeps every section and every key, writes the value exactly where the section and key exist, leaves every other entry alone, and changes nothing otherwise |
| Config.UpdateIdempotent | layer2RLdiagnosis-v1/config.py:171-172 | about `Updated`: writing back an entry's own value changes nothing, and writing the same value twice is writing it once |
| Config.UpdateRestores | layer2RLdiagnosis-v1/config.py:171-172 | about `Updated`: updating an entry and then restoring its old value gives back the configuration |
| Config.UpdatesCommute | layer2RLdiagnosis-v1/config.py:171-172 | about `Updated`: writes to two different entries commute |
| Config.DefaultUpdates | layer2RLdiagnosis-v1/config.py:171 | about `Defaults`: an existing key of an existing section is updatable; an unknown key or an unknown section is not |
| Config.Configuration.UpdateConfig | layer2RLdiagnosis-v1/config.py:168-174 | reports whether the section has the key and writes the value through the shared sections in that case only, so later reads see it |

## Left out

- Random number generation is given as input, never reproduced. This covers:
  - the patient choice and confidence heuristic of the first environment;
  - the shuffles of both loaders;
  - the mock event draws;
  - the ±2 jitter of the comprehensive overall score.
  Each enters as a parameter with the range the source draws from.
- Square roots (`np.std`), `np.median` and `round(x, n)` are not defined.
  - The median confidence and the standard deviation of event durations are parameters.
  - Reported values are not rounded.
- Floating point is modelled as exact reals. The ECE bins are written with exact edges k/10, not `np.linspace` floats. The float32 observation arrays are sequences of reals.
- The trained agents, `evaluate_episode` and the neural networks are not part of this model. The diagnoses an agent makes are given as input.
- Feature extraction, resampling, `librosa`, `np.load`, directory walks, file and JSON writing, plotting and printing are I/O or foreign code. This includes `print_config` in `config.py`.
- numpy shape errors are reduced to one case: arrays whose row widths differ. A division by zero inside numpy (which yields inf or nan with a warning) is reported as `ZeroDivisionError`.
- MetricsUtils.Normalization: with no rows but some columns, numpy returns nan parameters for 'standard' and 'robust' (the mean and median of an empty column). Reals have no nan, so the model reports this case as `ZeroDivisionError`, as it does for numpy's other inf and nan results.
- `split_patients` in the model-2 loader delegates to scikit-learn and is left out.
- `get_all_patient_ids` is the `order` field of the loaded table.
- EpisodeEnv.ApneaDetectionEnv.Step, EpisodeEnv.ApneaDetectionEnv.Observation and SleepSimulator.SleepEnvironment.Step require a prior Reset (a chosen patient, a current state). Calling `step` first raises AttributeError in `layer2RLdiagnosis-v1/apnea_env.py` and `layer3rl/sleep_environment.py`; that precondition excludes the case rather than modelling the error. The model-2 environment sets its index, diagnoses and features in its constructor, so it can be stepped before reset, as modelled.
- The user profile's required fields are never None. Only the optional sleep metrics fall back to defaults (`value or default`).
- The weighted scorer takes its weights as a four-field record, and a dictionary with other keys is not modelled. `None` stands for both an omitted and an empty dictionary, since `weights or default` sends both to the defaults.
- Recommendation and risk texts are modelled as enumerations with their exact wording. The formatting of notes that embed numbers is not modelled.
- These recommendation-engine members are agent-driven or orchestration and are left out:
  - `generate_recommendations`;
  - `_create_environment_recommendations`;
  - `_create_lifestyle_recommendations`;
  - `_generate_pre_sleep_routine`;
  - `_generate_bedtime_schedule`;
  - `_generate_dietary_recommendations`;
  - `_generate_exercise_recommendations`;
  - `_generate_stress_management`;
  - `_identify_primary_factors`;
  - `_analyze_sleep_quality`;
  - `_create_implementation_plan`.
- `get_config` hands out the module's own dictionaries. The model keeps one shared `sections` field that `GetConfig` reads and `UpdateConfig` writes, rather than modelling Python aliasing of each dictionary.
- Demo.RewardMeaning: states that the reward never exceeds the correctness and equals it at a matching confidence. The converse (equality only at a matching confidence) is not stated.
- CustomAudio.AnalyzeResults: the episode results always carry an ECE, so the report's fallbacks for a missing ECE (0 for the score, Low for the reliability) do not arise and are not modelled.
- PsgLoader.CreatePatientWiseSplits: the in-place `np.random.shuffle` with seed 42 is given as the shuffled order, a permutation of the patient ids.

## Findings

| source | as written | input that shows it | evidently intended | confidence | as-written member | corrected member |
|---|---|---|---|---|---|---|
| layer2RLdiagnosis-v1/apnea_env.py:235 | the episode metrics compare the predictions with the patient's first n labels | labels [1, 0], WAIT over segment 0, then DIAGNOSE segment 1 with confidence 0.4 (prediction 0, correct): accuracy is reported as 0 though the one diagnosis was right | compare each prediction with the label of the segment it diagnosed | not executed | EpisodeEnv.WaitThenDiagnoseScenario | EpisodeEnv.ApneaDetectionEnv.GetEpisodeMetricsCorrected |
| layer3rl/sleep_environment.py:150-156 | every history record holds the one mutable current state, so later steps rewrite earlier records | two one-degree warming steps from 20 degrees: the first record reads 21 after its step and 22 after the next | each record keeps a copy of the state at its step | not executed | SleepSimulator.HistoryAliasingScenario | SleepSimulator.SleepEnvironment.StepCorrected |
| layer2RLdiagnosis-v1/data_loader.py:102-117 | only the sum of the ratios is checked, so a negative ratio slices from the end | four patients with ratios -0.5, 0.75, 0.75: train is the first two and test the last three, sharing the second patient | refuse negative ratios, keeping the three lists disjoint | not executed | PsgLoader.NegativeRatioOverlaps | PsgLoader.CreatePatientWiseSplitsChecked |
| layer2RLdiagnosis-model-2/test_custom_audio.py:108-120 | an event's time is its position among the diagnoses times the segment duration; the events are the diagnoses whose ground-truth label field is 1. The defect is latent: `test_audio_file`, the only caller, passes one segment labelled 0, so no event arises | a direct caller whose diagnoses hold a WAIT over segment 0 and then a DIAGNOSE of segment 1 labelled 1, with 10-second segments: the event is reported at 0 s | stamp the event at the start of the segment it names (10 s), an intent read only from the names of the `timestamp` and `segment_index` fields; no test or document states it | not executed | CustomAudio.PositionMisplacesEvent | CustomAudio.EventsBySegment |
