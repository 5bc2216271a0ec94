/**
 * The mock apnea diagnostic of the environment-optimisation layer
 * (`layer3rl/apnea_diagnosis.py`): four simulated apnea events over a night,
 * and the metrics derived from them (AHI, lowest oxygen, snoring intensity,
 * breathing regularity, risk level, confidence).
 *
 * The random draws of the event generator are an input; the standard
 * deviation of the event durations is an input too, and rounding of the
 * reported values is not modelled.
 */
module MockDiagnostic {
  import opened Wrappers
  import opened Numeric

  datatype Severity = Mild | Moderate | Severe
  {
    /** The snoring weight of an event of this severity. */
    function Weight(): real
    {
      match this
      case Mild => 0.3
      case Moderate => 0.6
      case Severe => 0.9
    }
  }

  datatype EventType = Obstructive | Central | Mixed

  datatype ApneaEvent = ApneaEvent(timestamp: real, duration: real, severity: Severity, eventType: EventType, oxygenDrop: real)

  /** One event's random draws: a second of the night, a duration, a severity, a
      type and an oxygen drop. */
  datatype EventDraw = EventDraw(second: int, duration: real, severity: Severity, eventType: EventType, oxygenDrop: real)

  datatype RiskLevel = Low | Medium | High
  {
    function Name(): string
    {
      match this
      case Low => "low"
      case Medium => "medium"
      case High => "high"
    }
  }

  datatype ApneaDiagnosis = ApneaDiagnosis(
    totalApneaEvents: int,
    totalHypopneaEvents: int,
    apneaHypopneaIndex: real,
    oxygenDesaturation: real,
    snoringIntensity: real,
    breathingRegularity: real,
    riskLevel: RiskLevel,
    events: seq<ApneaEvent>,
    analysisConfidence: real)

  const EventsPerNight := 4

  function EventOf(d: EventDraw): ApneaEvent
  {
    ApneaEvent(d.second as real, d.duration, d.severity, d.eventType, d.oxygenDrop)
  }

  /** The draws `generate_mock_apnea_events` can make for a night of `hours`: four
      distinct whole seconds below `int(hours * 3600)`, durations in [15, 45) and
      oxygen drops in [2, 8). */
  predicate ValidDraws(hours: real, draws: seq<EventDraw>)
  {
    |draws| == EventsPerNight &&
    (forall i :: 0 <= i < |draws| ==>
       0 <= draws[i].second < Trunc(hours * 3600.0) &&
       15.0 <= draws[i].duration < 45.0 && 2.0 <= draws[i].oxygenDrop < 8.0) &&
    (forall i, j :: 0 <= i < j < |draws| ==> draws[i].second != draws[j].second)
  }

  /** `np.random.choice(int(hours * 3600), 4, replace=False)` has four distinct seconds to
      draw from. */
  predicate EnoughSeconds(hours: real)
  {
    Trunc(hours * 3600.0) >= EventsPerNight
  }

  predicate SortedByTime(s: seq<ApneaEvent>)
  {
    forall i, j :: 0 <= i < j < |s| ==> s[i].timestamp <= s[j].timestamp
  }

  predicate DistinctTimes(s: seq<ApneaEvent>)
  {
    forall i, j :: 0 <= i < j < |s| ==> s[i].timestamp != s[j].timestamp
  }

  /** `events.sort(key=lambda x: x.timestamp)`, as an insertion sort in place. */
  method SortByTimestamp(a: array<ApneaEvent>)
    modifies a
    ensures SortedByTime(a[..])
    ensures multiset(a[..]) == multiset(old(a[..]))
    ensures DistinctTimes(old(a[..])) ==> DistinctTimes(a[..])
  {
    var i := 0;
    while i < a.Length
      invariant 0 <= i <= a.Length
      invariant SortedByTime(a[..i])
      invariant multiset(a[..]) == multiset(old(a[..]))
      invariant DistinctTimes(old(a[..])) ==> DistinctTimes(a[..])
    {
      InsertIntoSorted(a, i);
      i := i + 1;
    }
    assert a[..a.Length] == a[..];
  }

  /** Moves `a[i]` down into the sorted prefix `a[..i]`. */
  method InsertIntoSorted(a: array<ApneaEvent>, i: int)
    requires 0 <= i < a.Length && SortedByTime(a[..i])
    modifies a
    ensures SortedByTime(a[..i + 1])
    ensures multiset(a[..]) == multiset(old(a[..]))
    ensures DistinctTimes(old(a[..])) ==> DistinctTimes(a[..])
  {
    var j := i;
    while j > 0 && a[j - 1].timestamp > a[j].timestamp
      invariant 0 <= j <= i
      invariant forall k, l :: 0 <= k < l <= i && k != j && l != j ==> a[k].timestamp <= a[l].timestamp
      invariant forall l :: j < l <= i ==> a[j].timestamp <= a[l].timestamp
      invariant multiset(a[..]) == multiset(old(a[..]))
      invariant DistinctTimes(old(a[..])) ==> DistinctTimes(a[..])
    {
      Swap(a, j - 1, j);
      j := j - 1;
    }
  }

  method Swap(a: array<ApneaEvent>, i: int, j: int)
    requires 0 <= i < j < a.Length
    modifies a
    ensures a[i] == old(a[j]) && a[j] == old(a[i])
    ensures forall m :: 0 <= m < a.Length && m != i && m != j ==> a[m] == old(a[m])
    ensures multiset(a[..]) == multiset(old(a[..]))
    ensures DistinctTimes(old(a[..])) ==> DistinctTimes(a[..])
  {
    ghost var before := a[..];
    a[i], a[j] := a[j], a[i];
    if DistinctTimes(before) {
      forall p, q | 0 <= p < q < a.Length ensures a[..][p].timestamp != a[..][q].timestamp {
        var p0 := if p == i then j else if p == j then i else p;
        var q0 := if q == i then j else if q == j then i else q;
        assert a[p] == before[p0] && a[q] == before[q0];
        if p0 < q0 {
          assert before[p0].timestamp != before[q0].timestamp;
        } else {
          assert before[q0].timestamp != before[p0].timestamp;
        }
      }
    }
  }

  /** `generate_mock_apnea_events`: one event per draw, sorted by timestamp.  The
      timestamps come out strictly increasing, and the events are exactly the drawn
      ones.  A night with fewer than four whole seconds leaves nothing to draw four
      distinct seconds from, and numpy raises ValueError. */
  method GenerateMockApneaEvents(hours: real, draws: seq<EventDraw>) returns (r: Result<seq<ApneaEvent>>)
    requires EnoughSeconds(hours) ==> ValidDraws(hours, draws)
    ensures r.Err? <==> !EnoughSeconds(hours)
    ensures r.Err? ==> r.error.ValueError?
    ensures r.Ok? ==> |r.value| == EventsPerNight
    ensures r.Ok? ==> multiset(r.value) == multiset(seq(|draws|, i requires 0 <= i < |draws| => EventOf(draws[i])))
    ensures r.Ok? ==> forall i, j :: 0 <= i < j < |r.value| ==> r.value[i].timestamp < r.value[j].timestamp
    ensures r.Ok? ==> forall i :: 0 <= i < |r.value| ==> 0.0 <= r.value[i].timestamp < hours * 3600.0
    ensures r.Ok? ==> forall i :: 0 <= i < |r.value| ==>
      15.0 <= r.value[i].duration < 45.0 && 2.0 <= r.value[i].oxygenDrop < 8.0
  {
    var population := Trunc(hours * 3600.0);
    if population <= 0 {
      return Err(ValueError("a must be greater than 0 unless no samples are taken"));
    }
    if population < EventsPerNight {
      return Err(ValueError("Cannot take a larger sample than population when 'replace=False'"));
    }
    ghost var drawn := seq(|draws|, i requires 0 <= i < |draws| => EventOf(draws[i]));
    var list: seq<ApneaEvent> := [];
    var k := 0;
    while k < |draws|
      invariant 0 <= k <= |draws|
      invariant list == drawn[..k]
    {
      list := list + [EventOf(draws[k])];
      k := k + 1;
    }
    assert list == drawn;
    var a := new ApneaEvent[|list|](i requires 0 <= i < |list| reads {} => list[i]);
    assert a[..] == list;
    assert DistinctTimes(list);
    SortByTimestamp(a);
    var events := a[..];
    forall i | 0 <= i < |events|
      ensures 0.0 <= events[i].timestamp < hours * 3600.0
      ensures 15.0 <= events[i].duration < 45.0 && 2.0 <= events[i].oxygenDrop < 8.0
    {
      assert events[i] in multiset(drawn);
      var j :| 0 <= j < |drawn| && drawn[j] == events[i];
      TruncBelow(hours * 3600.0, draws[j].second);
    }
    r := Ok(events);
  }

  /** A whole number below `int(x)` is below `x`. */
  lemma TruncBelow(x: real, n: int)
    requires n < Trunc(x) && 0 <= n
    ensures (n as real) < x
  {
  }

  // ---------------------------------------------------------------- metrics

  /** `calculate_ahi`: events per hour; a night of zero hours is a division by zero. */
  function CalculateAhi(events: seq<ApneaEvent>, hours: real): (r: Result<real>)
    ensures r.Err? <==> hours == 0.0
    ensures r.Ok? ==> r.value * hours == |events| as real
    ensures r.Ok? && hours > 0.0 ==> r.value >= 0.0
  {
    if hours == 0.0 then Err(ZeroDivisionError) else Ok(|events| as real / hours)
  }

  /** The largest oxygen drop of a non-empty list of events. */
  function MaxDrop(events: seq<ApneaEvent>): (r: real)
    requires |events| > 0
    ensures forall i :: 0 <= i < |events| ==> events[i].oxygenDrop <= r
    ensures exists i :: 0 <= i < |events| && events[i].oxygenDrop == r
  {
    if |events| == 1 then
      assert events[0].oxygenDrop == events[0].oxygenDrop;
      events[0].oxygenDrop
    else
      var rest := MaxDrop(events[1..]);
      var j :| 0 <= j < |events[1..]| && events[1..][j].oxygenDrop == rest;
      assert events[j + 1].oxygenDrop == rest;
      assert events[0].oxygenDrop == events[0].oxygenDrop;
      Max(events[0].oxygenDrop, rest)
  }

  /** `calculate_oxygen_desaturation`: 98 with no events, otherwise 98 less the largest
      drop. */
  function OxygenDesaturation(events: seq<ApneaEvent>): real
  {
    if |events| == 0 then 98.0 else 98.0 - MaxDrop(events)
  }

  /** The lowest oxygen is 98 less some event's drop and at most 98 less every drop, so
      it never exceeds 98 for non-negative drops. */
  lemma OxygenDesaturationMeaning(events: seq<ApneaEvent>)
    ensures |events| == 0 ==> OxygenDesaturation(events) == 98.0
    ensures forall i :: 0 <= i < |events| ==> OxygenDesaturation(events) <= 98.0 - events[i].oxygenDrop
    ensures |events| > 0 ==> exists i :: 0 <= i < |events| && OxygenDesaturation(events) == 98.0 - events[i].oxygenDrop
    ensures (forall i :: 0 <= i < |events| ==> events[i].oxygenDrop >= 0.0) ==> OxygenDesaturation(events) <= 98.0
  {
    if |events| > 0 {
      var i :| 0 <= i < |events| && events[i].oxygenDrop == MaxDrop(events);
      assert OxygenDesaturation(events) == 98.0 - events[i].oxygenDrop;
    }
  }

  function Weights(events: seq<ApneaEvent>): seq<real>
  {
    seq(|events|, i requires 0 <= i < |events| => events[i].severity.Weight())
  }

  /** `assess_snoring_intensity`: 0.1 with no events, otherwise the mean severity weight. */
  function SnoringIntensity(events: seq<ApneaEvent>): real
  {
    if |events| == 0 then 0.1 else Mean(Weights(events))
  }

  /** With events, the intensity lies between the mild and the severe weight, and it is
      the mild weight when every event is mild. */
  lemma SnoringIntensityBounds(events: seq<ApneaEvent>)
    requires |events| > 0
    ensures 0.3 <= SnoringIntensity(events) <= 0.9
    ensures (forall i :: 0 <= i < |events| ==> events[i].severity == Mild) ==> SnoringIntensity(events) == 0.3
  {
    var w := Weights(events);
    MeanBounds(w, 0.3, 0.9);
    if forall i :: 0 <= i < |events| ==> events[i].severity == Mild {
      MeanBounds(w, 0.3, 0.3);
    }
  }

  /** Regularity as a function of the event frequency: 0.95 less 0.065 per event an
      hour, never below 0.3. */
  function RegularityOfFrequency(frequency: real): real
  {
    Max(0.3, 0.95 - frequency * 0.065)
  }

  /** `assess_breathing_regularity`: 0.95 with no events; otherwise the frequency is
      a division by the night's length. */
  function BreathingRegularity(events: seq<ApneaEvent>, hours: real): (r: Result<real>)
    ensures r.Err? <==> |events| > 0 && hours == 0.0
  {
    if |events| == 0 then Ok(0.95)
    else if hours == 0.0 then Err(ZeroDivisionError)
    else Ok(RegularityOfFrequency(|events| as real / hours))
  }

  /** For a night of positive length the regularity lies in [0.3, 0.95]; more events
      over the same night never make breathing more regular, and from 10 events an hour
      on it is the floor 0.3. */
  lemma BreathingRegularityMeaning(events: seq<ApneaEvent>, more: seq<ApneaEvent>, hours: real)
    requires hours > 0.0 && |events| <= |more|
    ensures 0.3 <= BreathingRegularity(events, hours).value <= 0.95
    ensures BreathingRegularity(more, hours).value <= BreathingRegularity(events, hours).value
    ensures |events| as real >= 10.0 * hours ==> BreathingRegularity(events, hours).value == 0.3
  {
    DivMonotone(|events| as real, |more| as real, hours);
    DivMonotone(0.0, |events| as real, hours);
    if |events| as real >= 10.0 * hours {
      DivMonotone(10.0 * hours, |events| as real, hours);
    }
  }

  /** `determine_risk_level`. */
  function DetermineRiskLevel(ahi: real, oxygen: real): RiskLevel
  {
    if ahi < 5.0 && oxygen > 95.0 then Low
    else if ahi < 15.0 && oxygen > 90.0 then Medium
    else High
  }

  lemma RiskLevelMeaning(ahi: real, oxygen: real)
    ensures DetermineRiskLevel(ahi, oxygen) == Low <==> ahi < 5.0 && oxygen > 95.0
    ensures DetermineRiskLevel(ahi, oxygen) == Medium <==> !(ahi < 5.0 && oxygen > 95.0) && ahi < 15.0 && oxygen > 90.0
    ensures DetermineRiskLevel(ahi, oxygen) == High <==> ahi >= 15.0 || oxygen <= 90.0
  {
  }

  /** The confidence base: 0.9 from six hours, 0.8 from four, else 0.7. */
  function BaseConfidence(hours: real): real
  {
    if hours >= 6.0 then 0.9 else if hours >= 4.0 then 0.8 else 0.7
  }

  /** `calculate_confidence`, given the standard deviation of the event durations. */
  function CalculateConfidence(events: seq<ApneaEvent>, hours: real, durationStd: real): real
  {
    if |events| == 0 then BaseConfidence(hours)
    else BaseConfidence(hours) * Max(0.1, 1.0 - durationStd / 30.0)
  }

  /** Without events the confidence is its base; with events and a non-negative spread
      it lies between a tenth of the base and the base, reaching the base for equal
      durations (a spread of 0); a longer night never lowers the base. */
  lemma ConfidenceMeaning(events: seq<ApneaEvent>, hours: real, longer: real, durationStd: real)
    requires durationStd >= 0.0 && hours <= longer
    ensures |events| == 0 ==> CalculateConfidence(events, hours, durationStd) == BaseConfidence(hours)
    ensures 0.1 * BaseConfidence(hours) <= CalculateConfidence(events, hours, durationStd) <= BaseConfidence(hours)
    ensures CalculateConfidence(events, hours, 0.0) == BaseConfidence(hours)
    ensures BaseConfidence(hours) <= BaseConfidence(longer)
  {
    DivMonotone(0.0, durationStd, 30.0);
  }

  /** The diagnosis `diagnose_sleep_apnea` assembles from a night's events. */
  function DiagnosisOf(events: seq<ApneaEvent>, hours: real, durationStd: real): ApneaDiagnosis
    requires hours > 0.0
  {
    var ahi := CalculateAhi(events, hours).value;
    var oxygen := OxygenDesaturation(events);
    ApneaDiagnosis(|events|, 0, ahi, oxygen, SnoringIntensity(events), BreathingRegularity(events, hours).value,
                   DetermineRiskLevel(ahi, oxygen), events, CalculateConfidence(events, hours, durationStd))
  }

  /** For events whose oxygen drops lie in [2, 8), every reported value lies in its
      range. */
  lemma DiagnosisBounds(events: seq<ApneaEvent>, hours: real, durationStd: real)
    requires hours > 0.0 && durationStd >= 0.0 && |events| > 0
    requires forall i :: 0 <= i < |events| ==> 2.0 <= events[i].oxygenDrop < 8.0
    ensures var d := DiagnosisOf(events, hours, durationStd);
      d.totalApneaEvents == |events| && d.totalHypopneaEvents == 0 && d.events == events &&
      d.apneaHypopneaIndex * hours == |events| as real &&
      90.0 < d.oxygenDesaturation <= 96.0 &&
      0.3 <= d.snoringIntensity <= 0.9 && 0.3 <= d.breathingRegularity <= 0.95 &&
      d.riskLevel == DetermineRiskLevel(d.apneaHypopneaIndex, d.oxygenDesaturation) &&
      0.07 <= d.analysisConfidence <= 0.9
  {
    OxygenDesaturationMeaning(events);
    SnoringIntensityBounds(events);
    BreathingRegularityMeaning(events, events, hours);
    ConfidenceMeaning(events, hours, hours, durationStd);
  }

  /** `diagnose_sleep_apnea` for a night of `hours`, given the random draws and the
      spread of the drawn durations; the generator's ValueError on too short a night
      propagates. */
  method DiagnoseSleepApnea(hours: real, draws: seq<EventDraw>, durationStd: real) returns (r: Result<ApneaDiagnosis>)
    requires EnoughSeconds(hours) ==> ValidDraws(hours, draws)
    requires durationStd >= 0.0
    ensures r.Err? <==> !EnoughSeconds(hours)
    ensures r.Err? ==> r.error.ValueError?
    ensures r.Ok? ==> var d := r.value;
      d.totalApneaEvents == |d.events| == 4 && d.totalHypopneaEvents == 0 &&
      multiset(d.events) == multiset(seq(|draws|, i requires 0 <= i < |draws| => EventOf(draws[i]))) &&
      (forall i, j :: 0 <= i < j < |d.events| ==> d.events[i].timestamp < d.events[j].timestamp) &&
      hours > 0.0 && d.apneaHypopneaIndex * hours == 4.0 &&
      90.0 < d.oxygenDesaturation <= 96.0 &&
      0.3 <= d.snoringIntensity <= 0.9 && 0.3 <= d.breathingRegularity <= 0.95 &&
      d.riskLevel == DetermineRiskLevel(d.apneaHypopneaIndex, d.oxygenDesaturation) &&
      0.07 <= d.analysisConfidence <= 0.9
  {
    var generated := GenerateMockApneaEvents(hours, draws);
    if generated.Err? {
      return Err(generated.error);
    }
    var events := generated.value;
    assert hours > 0.0 by {
      TruncBelow(hours * 3600.0, draws[0].second);
    }
    var d := DiagnosisOf(events, hours, durationStd);
    DiagnosisBounds(events, hours, durationStd);
    r := Ok(d);
  }
}
