/**
 * The user profile that the sleep simulator and the recommendation engine
 * read: environmental preferences, optional baseline sleep metrics and
 * optional demographics.
 */
module UserProfiles {
  import opened Wrappers

  datatype UserProfile = UserProfile(
    userId: string,
    tempMin: real,
    tempMax: real,
    tempOptimal: real,
    lightSensitivity: real,
    noiseTolerance: real,
    humidityPreference: real,
    airflowPreference: real,
    baselineSleepScore: Option<real>,
    baselineApneaRisk: Option<real>,
    baselineFragmentation: Option<real>,
    age: Option<int>,
    gender: Option<string>,
    weight: Option<real>,
    height: Option<real>)

  /** Python's `value or default` on an optional number: a missing value and a
      value of zero both fall back to the default. */
  function OrDefault(value: Option<real>, default: real): (r: real)
    ensures value.Some? && value.value != 0.0 ==> r == value.value
    ensures value.None? || value.value == 0.0 ==> r == default
  {
    if value.Some? && value.value != 0.0 then value.value else default
  }
}
