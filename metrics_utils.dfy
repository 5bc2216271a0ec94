/**
 * The metric helpers of the first-generation diagnosis layer
 * (`layer2RLdiagnosis-v1/utils.py`): the binned calibration error, the
 * aggregation of episode metrics over a patient's episodes, the AHI
 * severity scale, segment timestamps, and column-wise feature
 * normalisation together with its re-application from saved parameters.
 *
 * `np.std` and `np.median` have no algebraic definition here: the standard
 * deviations, medians and median absolute deviations of the columns are
 * taken as given (`SpreadStats`); everything computed from them is modelled.
 */
module MetricsUtils {
  import opened Wrappers
  import opened Numeric
  import Calibration
  import EpisodeEnv

  // ---------------------------------------------------------------- calibration error

  /** `calculate_ece`: the binned calibration error over `nBins` bins.  The
      predictions are accepted and never read.  `linspace(0, 1, nBins + 1)` raises
      ValueError below nBins == -1; at -1 it returns no boundaries and at 0 a single
      one, so there are no bins and the error is 0.  An empty sample divides by zero. */
  method CalculateEce(confidences: seq<real>, predictions: seq<int>, trueLabels: seq<real>, nBins: int)
    returns (r: Result<real>)
    requires |confidences| == |trueLabels|
    ensures r.Err? <==> nBins < -1 || |confidences| == 0
    ensures nBins < -1 ==> r.Err? && r.error.ValueError?
    ensures nBins >= -1 && |confidences| == 0 ==> r == Err(ZeroDivisionError)
    ensures r.Ok? ==> r.value == Calibration.Ece(confidences, trueLabels, BinCount(nBins))
    ensures r.Ok? && nBins <= 0 ==> r.value == 0.0
    ensures r.Ok? && (forall i :: 0 <= i < |trueLabels| ==> 0.0 <= trueLabels[i] <= 1.0) ==>
              0.0 <= r.value <= 1.0
  {
    if nBins < -1 {
      return Err(ValueError("Number of samples must be non-negative"));
    }
    var total := Calibration.BinnedGapTotal(confidences, trueLabels, BinCount(nBins));
    if |confidences| == 0 {
      return Err(ZeroDivisionError);
    }
    r := Ok(total / (|confidences| as real));
    if forall i :: 0 <= i < |trueLabels| ==> 0.0 <= trueLabels[i] <= 1.0 {
      Calibration.EceBounded(confidences, trueLabels, BinCount(nBins));
    }
  }

  /** The number of bins `linspace(0, 1, nBins + 1)` delimits: none for nBins of -1. */
  function BinCount(nBins: int): nat
  {
    if nBins < 0 then 0 else nBins
  }

  // ---------------------------------------------------------------- aggregation over episodes

  /** The five entries of an episode's metrics that the aggregation reads. */
  datatype EpisodeRecord = EpisodeRecord(
    accuracy: real, ece: real, meanConfidence: real, severityScore: real, nApneaEvents: int)

  /** `aggregate_patient_metrics` without the standard deviations. */
  datatype Aggregate = Aggregate(
    meanAccuracy: real, meanEce: real, meanConfidence: real, meanSeverity: real,
    totalApneaEvents: int, meanApneaEventsPerEpisode: real, nEpisodes: nat)

  function Field(ms: seq<EpisodeRecord>, f: EpisodeRecord -> real): (r: seq<real>)
    ensures |r| == |ms| && forall i :: 0 <= i < |ms| ==> r[i] == f(ms[i])
  {
    seq(|ms|, i requires 0 <= i < |ms| => f(ms[i]))
  }

  function EventTotal(ms: seq<EpisodeRecord>): int
  {
    if |ms| == 0 then 0 else EventTotal(ms[..|ms| - 1]) + ms[|ms| - 1].nApneaEvents
  }

  /** None stands for the empty dictionary returned for no episodes. */
  function AggregatePatientMetrics(ms: seq<EpisodeRecord>): (r: Option<Aggregate>)
    ensures r.None? <==> |ms| == 0
    ensures r.Some? ==> r.value.nEpisodes == |ms| && r.value.totalApneaEvents == EventTotal(ms)
  {
    if |ms| == 0 then None
    else
      Some(Aggregate(
        Mean(Field(ms, (m: EpisodeRecord) => m.accuracy)),
        Mean(Field(ms, (m: EpisodeRecord) => m.ece)),
        Mean(Field(ms, (m: EpisodeRecord) => m.meanConfidence)),
        Mean(Field(ms, (m: EpisodeRecord) => m.severityScore)),
        EventTotal(ms),
        (EventTotal(ms) as real) / (|ms| as real),
        |ms|))
  }

  lemma {:induction false} EventTotalBounds(ms: seq<EpisodeRecord>)
    requires forall i :: 0 <= i < |ms| ==> ms[i].nApneaEvents >= 0
    ensures EventTotal(ms) >= 0
    ensures forall i :: 0 <= i < |ms| ==> ms[i].nApneaEvents <= EventTotal(ms)
  {
    if |ms| > 0 {
      EventTotalBounds(ms[..|ms| - 1]);
      assert forall i :: 0 <= i < |ms| - 1 ==> ms[..|ms| - 1][i] == ms[i];
    }
  }

  /** Episode metrics in [0, 1] aggregate to means in [0, 1]; with non-negative event
      counts, the mean count per episode lies between 0 and the total. */
  lemma AggregateBounds(ms: seq<EpisodeRecord>)
    requires |ms| > 0
    requires forall i :: 0 <= i < |ms| ==>
               0.0 <= ms[i].accuracy <= 1.0 && 0.0 <= ms[i].ece <= 1.0 &&
               0.0 <= ms[i].meanConfidence <= 1.0 && 0.0 <= ms[i].severityScore <= 1.0 &&
               ms[i].nApneaEvents >= 0
    ensures var a := AggregatePatientMetrics(ms).value;
      0.0 <= a.meanAccuracy <= 1.0 && 0.0 <= a.meanEce <= 1.0 &&
      0.0 <= a.meanConfidence <= 1.0 && 0.0 <= a.meanSeverity <= 1.0 &&
      0.0 <= a.meanApneaEventsPerEpisode <= a.totalApneaEvents as real
  {
    MeanBounds(Field(ms, (m: EpisodeRecord) => m.accuracy), 0.0, 1.0);
    MeanBounds(Field(ms, (m: EpisodeRecord) => m.ece), 0.0, 1.0);
    MeanBounds(Field(ms, (m: EpisodeRecord) => m.meanConfidence), 0.0, 1.0);
    MeanBounds(Field(ms, (m: EpisodeRecord) => m.severityScore), 0.0, 1.0);
    EventTotalBounds(ms);
    var t := EventTotal(ms) as real;
    var n := |ms| as real;
    DivMonotone(0.0, t, n);
    assert t / n <= t by {
      assert t / n * n == t;
      assert t / n * 1.0 <= t / n * n;
    }
  }

  /** The two-episode example: accuracies 0.8 and 0.9 average to 0.85. */
  lemma AggregateTwoEpisodes()
    ensures var a := AggregatePatientMetrics([EpisodeRecord(0.8, 0.1, 0.7, 0.3, 2), EpisodeRecord(0.9, 0.05, 0.8, 0.4, 3)]).value;
      a.meanAccuracy == 0.85 && a.totalApneaEvents == 5 && a.nEpisodes == 2 && a.meanApneaEventsPerEpisode == 2.5
  {
    var ms := [EpisodeRecord(0.8, 0.1, 0.7, 0.3, 2), EpisodeRecord(0.9, 0.05, 0.8, 0.4, 3)];
    var acc := Field(ms, (m: EpisodeRecord) => m.accuracy);
    assert acc == [0.8, 0.9];
    assert acc[..1] == [0.8];
    assert [0.8][..0] == [];
    assert Sum(acc) == 1.7;
    assert ms[..1][..0] == [];
    assert EventTotal(ms) == 5;
  }

  // ---------------------------------------------------------------- severity scale

  /** The four categories of `calculate_severity_scale`. */
  datatype SeverityScale = Normal | Mild | Moderate | Severe
  {
    function Name(): string
    {
      match this
      case Normal => "Normal"
      case Mild => "Mild"
      case Moderate => "Moderate"
      case Severe => "Severe"
    }

    function Rank(): nat
    {
      match this
      case Normal => 0
      case Mild => 1
      case Moderate => 2
      case Severe => 3
    }
  }

  function CalculateSeverityScale(eventsPerHour: real): SeverityScale
  {
    if eventsPerHour < 5.0 then Normal
    else if eventsPerHour < 15.0 then Mild
    else if eventsPerHour < 30.0 then Moderate
    else Severe
  }

  /** A higher event rate never gives a milder category. */
  lemma SeverityScaleMonotone(a: real, b: real)
    requires a <= b
    ensures CalculateSeverityScale(a).Rank() <= CalculateSeverityScale(b).Rank()
  {
  }

  /** The scale agrees with the environment's six-band severity score on the two
      mildest bands; Moderate covers the environment's bands 0.4 and 0.6, and Severe
      starts inside band 0.6. */
  lemma SeverityScaleAgreesWithBands(ahi: real)
    ensures CalculateSeverityScale(ahi) == Normal <==> EpisodeEnv.AhiBand(ahi) == 0.1
    ensures CalculateSeverityScale(ahi) == Mild <==> EpisodeEnv.AhiBand(ahi) == 0.2
    ensures CalculateSeverityScale(ahi) == Moderate ==> EpisodeEnv.AhiBand(ahi) == 0.4 || EpisodeEnv.AhiBand(ahi) == 0.6
    ensures CalculateSeverityScale(ahi) == Severe ==> EpisodeEnv.AhiBand(ahi) >= 0.6
  {
  }

  // ---------------------------------------------------------------- timestamps

  /** `extract_timestamps`: `np.arange(0, n * d, d)` over the segment count n.
      A zero duration is a zero step, which numpy rejects with ZeroDivisionError. */
  function ExtractTimestamps(segmentCount: nat, segmentDuration: real): (r: Result<seq<real>>)
    ensures r.Err? <==> segmentDuration == 0.0
    ensures r.Ok? ==> |r.value| == segmentCount
    ensures r.Ok? ==> forall i :: 0 <= i < segmentCount ==> r.value[i] == (i as real) * segmentDuration
  {
    if segmentDuration == 0.0 then Err(ZeroDivisionError)
    else Ok(seq(segmentCount, i requires 0 <= i < segmentCount => (i as real) * segmentDuration))
  }

  /** With a positive duration the timestamps start at 0, increase strictly and are
      evenly spaced; at the 10-second segments of the environment they are the
      timestamps it records for each step. */
  lemma TimestampsEvenlySpaced(segmentCount: nat, segmentDuration: real)
    requires segmentDuration > 0.0
    ensures var ts := ExtractTimestamps(segmentCount, segmentDuration).value;
      (segmentCount > 0 ==> ts[0] == 0.0) &&
      (forall i :: 0 <= i < segmentCount - 1 ==> ts[i + 1] == ts[i] + segmentDuration) &&
      (forall i, k :: 0 <= i < k < segmentCount ==> ts[i] < ts[k]) &&
      (segmentDuration == EpisodeEnv.SegmentSeconds ==>
         forall i :: 0 <= i < segmentCount ==> ts[i] == (i as real) * EpisodeEnv.SegmentSeconds)
  {
    var ts := ExtractTimestamps(segmentCount, segmentDuration).value;
    forall i, k | 0 <= i < k < segmentCount
      ensures ts[i] < ts[k]
    {
      assert ts[k] - ts[i] == ((k - i) as real) * segmentDuration;
    }
  }

  // ---------------------------------------------------------------- normalisation

  /** A feature matrix whose rows all have `width` columns. */
  predicate Rectangular(rows: seq<seq<real>>, width: nat)
  {
    forall i :: 0 <= i < |rows| ==> |rows[i]| == width
  }

  function Column(rows: seq<seq<real>>, width: nat, j: nat): (c: seq<real>)
    requires Rectangular(rows, width) && j < width
    ensures |c| == |rows| && forall i :: 0 <= i < |rows| ==> c[i] == rows[i][j]
  {
    seq(|rows|, i requires 0 <= i < |rows| => rows[i][j])
  }

  predicate ConstantColumn(rows: seq<seq<real>>, width: nat, j: nat)
    requires Rectangular(rows, width) && j < width
  {
    forall i, k :: 0 <= i < |rows| && 0 <= k < |rows| ==> rows[i][j] == rows[k][j]
  }

  function SeqMin(xs: seq<real>): real
    requires |xs| > 0
  {
    if |xs| == 1 then xs[0] else Min(SeqMin(xs[..|xs| - 1]), xs[|xs| - 1])
  }

  function SeqMax(xs: seq<real>): real
    requires |xs| > 0
  {
    if |xs| == 1 then xs[0] else Max(SeqMax(xs[..|xs| - 1]), xs[|xs| - 1])
  }

  /** The minimum and the maximum bound every element and are attained. */
  lemma {:induction false} SeqMinMaxBounds(xs: seq<real>)
    requires |xs| > 0
    ensures forall i :: 0 <= i < |xs| ==> SeqMin(xs) <= xs[i] <= SeqMax(xs)
    ensures exists i :: 0 <= i < |xs| && xs[i] == SeqMin(xs)
    ensures exists i :: 0 <= i < |xs| && xs[i] == SeqMax(xs)
  {
    if |xs| > 1 {
      var init := xs[..|xs| - 1];
      var last := |xs| - 1;
      SeqMinMaxBounds(init);
      forall i | 0 <= i < |xs|
        ensures SeqMin(xs) <= xs[i] <= SeqMax(xs)
      {
        if i < last {
          assert init[i] == xs[i];
        }
      }
      var lo :| 0 <= lo < |init| && init[lo] == SeqMin(init);
      var hi :| 0 <= hi < |init| && init[hi] == SeqMax(init);
      assert init[lo] == xs[lo] && init[hi] == xs[hi];
      if SeqMin(xs) == xs[last] {
        assert 0 <= last < |xs| && xs[last] == SeqMin(xs);
      } else {
        assert 0 <= lo < |xs| && xs[lo] == SeqMin(xs);
      }
      if SeqMax(xs) == xs[last] {
        assert 0 <= last < |xs| && xs[last] == SeqMax(xs);
      } else {
        assert 0 <= hi < |xs| && xs[hi] == SeqMax(xs);
      }
    } else {
      assert xs[0] == SeqMin(xs) && xs[0] == SeqMax(xs);
    }
  }

  /** The range of a sequence is zero exactly when all its elements are equal. */
  lemma RangeZeroIffConstant(xs: seq<real>)
    requires |xs| > 0
    ensures SeqMax(xs) - SeqMin(xs) == 0.0 <==>
      forall i, k :: 0 <= i < |xs| && 0 <= k < |xs| ==> xs[i] == xs[k]
  {
    SeqMinMaxBounds(xs);
    var lo :| 0 <= lo < |xs| && xs[lo] == SeqMin(xs);
    var hi :| 0 <= hi < |xs| && xs[hi] == SeqMax(xs);
    if forall i, k :: 0 <= i < |xs| && 0 <= k < |xs| ==> xs[i] == xs[k] {
      assert xs[lo] == xs[hi];
    }
  }

  function ColumnMeans(rows: seq<seq<real>>, width: nat): (r: seq<real>)
    requires |rows| > 0 && Rectangular(rows, width)
    ensures |r| == width
  {
    seq(width, j requires 0 <= j < width => Mean(Column(rows, width, j)))
  }

  function ColumnMins(rows: seq<seq<real>>, width: nat): (r: seq<real>)
    requires |rows| > 0 && Rectangular(rows, width)
    ensures |r| == width && forall j :: 0 <= j < width ==> r[j] == SeqMin(Column(rows, width, j))
  {
    seq(width, j requires 0 <= j < width => SeqMin(Column(rows, width, j)))
  }

  function ColumnMaxs(rows: seq<seq<real>>, width: nat): (r: seq<real>)
    requires |rows| > 0 && Rectangular(rows, width)
    ensures |r| == width && forall j :: 0 <= j < width ==> r[j] == SeqMax(Column(rows, width, j))
  {
    seq(width, j requires 0 <= j < width => SeqMax(Column(rows, width, j)))
  }

  function Difference(a: seq<real>, b: seq<real>): (r: seq<real>)
    requires |a| == |b|
    ensures |r| == |a| && forall j :: 0 <= j < |a| ==> r[j] == a[j] - b[j]
  {
    seq(|a|, j requires 0 <= j < |a| => a[j] - b[j])
  }

  /** `spread[spread == 0] = 1`: zero entries become 1, the others stay. */
  function NonZeroSpread(spread: seq<real>): (r: seq<real>)
    ensures |r| == |spread|
    ensures forall j :: 0 <= j < |r| ==> r[j] != 0.0 && (spread[j] != 0.0 ==> r[j] == spread[j])
  {
    seq(|spread|, j requires 0 <= j < |spread| => if spread[j] == 0.0 then 1.0 else spread[j])
  }

  /** The in-place replacement of zero spreads. */
  method ReplaceZeroSpread(spread: array<real>)
    modifies spread
    ensures spread[..] == NonZeroSpread(old(spread[..]))
  {
    var j := 0;
    while j < spread.Length
      invariant 0 <= j <= spread.Length
      invariant forall k :: 0 <= k < j ==> spread[k] == NonZeroSpread(old(spread[..]))[k]
      invariant forall k :: j <= k < spread.Length ==> spread[k] == old(spread[k])
    {
      if spread[j] == 0.0 {
        spread[j] := 1.0;
      }
      j := j + 1;
    }
  }

  /** `(features - centre) / spread`, broadcast over the rows. */
  function Rescaled(rows: seq<seq<real>>, centre: seq<real>, spread: seq<real>): (r: seq<seq<real>>)
    requires |centre| == |spread| && Rectangular(rows, |centre|)
    requires forall j :: 0 <= j < |spread| ==> spread[j] != 0.0
    ensures |r| == |rows| && Rectangular(r, |centre|)
    ensures forall i, j :: 0 <= i < |rows| && 0 <= j < |centre| ==> r[i][j] == (rows[i][j] - centre[j]) / spread[j]
  {
    seq(|rows|, i requires 0 <= i < |rows| =>
      seq(|centre|, j requires 0 <= j < |centre| => (rows[i][j] - centre[j]) / spread[j]))
  }

  datatype NormMethod = Standard | MinMax | Robust

  /** The method names both normalisers accept; any other raises ValueError. */
  function ParseMethod(name: string): (r: Result<NormMethod>)
    ensures r.Ok? <==> name == "standard" || name == "minmax" || name == "robust"
    ensures r.Err? ==> r.error.ValueError?
  {
    if name == "standard" then Ok(Standard)
    else if name == "minmax" then Ok(MinMax)
    else if name == "robust" then Ok(Robust)
    else Err(ValueError("Unknown normalization method"))
  }

  /** The parameter dictionary of each method. */
  datatype NormParams =
    | MeanStd(mean: seq<real>, std: seq<real>)
    | MinMaxRange(min: seq<real>, max: seq<real>)
    | MedianMad(median: seq<real>, mad: seq<real>)
  {
    predicate WellFormed()
    {
      match this
      case MeanStd(a, b) => |a| == |b|
      case MinMaxRange(a, b) => |a| == |b|
      case MedianMad(a, b) => |a| == |b|
    }

    function Width(): nat
    {
      match this
      case MeanStd(a, _) => |a|
      case MinMaxRange(a, _) => |a|
      case MedianMad(a, _) => |a|
    }
  }

  /** Per-column `np.std`, `np.median` and median absolute deviation, as numpy computes them. */
  datatype SpreadStats = SpreadStats(std: seq<real>, median: seq<real>, mad: seq<real>)

  predicate StatsFit(stats: SpreadStats, width: nat)
  {
    |stats.std| == width && |stats.median| == width && |stats.mad| == width
  }

  /** numpy's message when a minimum is reduced over an empty axis. */
  const ZeroSizeMinimum := "zero-size array to reduction operation minimum which has no identity"

  /** What `normalize_features` returns for a feature matrix of shape (|rows|, width):
      the normalised matrix and its parameters.  With no rows, 'minmax' fails in
      `np.min`, while the mean and median of an empty column are nan, which the model
      reports as ZeroDivisionError (as `Divide` does for numpy's inf and nan); with no
      columns either, every reduction is empty and nothing is nan. */
  function Normalization(rows: seq<seq<real>>, width: nat, name: string, stats: SpreadStats)
    : (r: Result<(seq<seq<real>>, NormParams)>)
    requires Rectangular(rows, width) && StatsFit(stats, width)
    ensures r.Err? <==> ParseMethod(name).Err? || (|rows| == 0 && (name == "minmax" || width > 0))
    ensures r.Err? && (ParseMethod(name).Err? || name == "minmax") ==> r.error.ValueError?
    ensures r.Err? && ParseMethod(name).Ok? && name != "minmax" ==> r.error == ZeroDivisionError
    ensures r.Ok? ==> r.value.1.WellFormed() && r.value.1.Width() == width &&
                      |r.value.0| == |rows| && Rectangular(r.value.0, width)
  {
    match ParseMethod(name)
    case Err(e) => Err(e)
    case Ok(m) =>
      if |rows| == 0 then
        if m == MinMax then Err(ValueError(ZeroSizeMinimum))
        else if width > 0 then Err(ZeroDivisionError)
        else if m == Standard then Ok(([], MeanStd([], [])))
        else Ok(([], MedianMad([], [])))
      else
        match m
        case Standard =>
          var mean := ColumnMeans(rows, width);
          var std := NonZeroSpread(stats.std);
          Ok((Rescaled(rows, mean, std), MeanStd(mean, std)))
        case MinMax =>
          var lo := ColumnMins(rows, width);
          var hi := ColumnMaxs(rows, width);
          Ok((Rescaled(rows, lo, NonZeroSpread(Difference(hi, lo))), MinMaxRange(lo, hi)))
        case Robust =>
          var mad := NonZeroSpread(stats.mad);
          Ok((Rescaled(rows, stats.median, mad), MedianMad(stats.median, mad)))
  }

  /** `normalize_features`, with the zero spreads replaced in place. */
  method NormalizeFeatures(rows: seq<seq<real>>, width: nat, name: string, stats: SpreadStats)
    returns (r: Result<(seq<seq<real>>, NormParams)>)
    requires Rectangular(rows, width) && StatsFit(stats, width)
    ensures r == Normalization(rows, width, name, stats)
  {
    var m := ParseMethod(name);
    if m.Err? {
      return Err(m.error);
    }
    if |rows| == 0 {
      if m.value == MinMax {
        return Err(ValueError(ZeroSizeMinimum));
      } else if width > 0 {
        return Err(ZeroDivisionError);
      }
      return Ok(([], if m.value == Standard then MeanStd([], []) else MedianMad([], [])));
    }
    var centre: seq<real>;
    var raw: seq<real>;
    match m.value {
      case Standard =>
        centre, raw := ColumnMeans(rows, width), stats.std;
      case MinMax =>
        centre, raw := ColumnMins(rows, width), Difference(ColumnMaxs(rows, width), ColumnMins(rows, width));
      case Robust =>
        centre, raw := stats.median, stats.mad;
    }
    var spread := new real[width](j => if 0 <= j < |raw| then raw[j] else 0.0);
    assert spread[..] == raw;
    ReplaceZeroSpread(spread);
    var normalized := Rescaled(rows, centre, spread[..]);
    match m.value {
      case Standard => r := Ok((normalized, MeanStd(centre, spread[..])));
      case MinMax => r := Ok((normalized, MinMaxRange(centre, ColumnMaxs(rows, width))));
      case Robust => r := Ok((normalized, MedianMad(centre, spread[..])));
    }
  }

  /** `(features - centre) / spread`; numpy turns a zero divisor into inf or nan
      entries, which the model reports as ZeroDivisionError. */
  function Divide(rows: seq<seq<real>>, centre: seq<real>, spread: seq<real>): (r: Result<seq<seq<real>>>)
    requires |centre| == |spread| && Rectangular(rows, |centre|)
    ensures r.Err? <==> |rows| > 0 && exists j :: 0 <= j < |spread| && spread[j] == 0.0
  {
    if |rows| > 0 && exists j :: 0 <= j < |spread| && spread[j] == 0.0 then Err(ZeroDivisionError)
    else if |rows| == 0 then Ok([])
    else Ok(Rescaled(rows, centre, spread))
  }

  /** `apply_normalization`: a parameter dictionary of another method lacks the key
      the method reads, which raises KeyError. */
  function ApplyNormalization(rows: seq<seq<real>>, params: NormParams, name: string): (r: Result<seq<seq<real>>>)
    requires params.WellFormed() && Rectangular(rows, params.Width())
    ensures ParseMethod(name).Err? ==> r.Err? && r.error.ValueError?
  {
    match ParseMethod(name)
    case Err(e) => Err(e)
    case Ok(Standard) =>
      if !params.MeanStd? then Err(KeyError("mean")) else Divide(rows, params.mean, params.std)
    case Ok(MinMax) =>
      if !params.MinMaxRange? then Err(KeyError("min")) else Divide(rows, params.min, Difference(params.max, params.min))
    case Ok(Robust) =>
      if !params.MedianMad? then Err(KeyError("median")) else Divide(rows, params.median, params.mad)
  }

  /** Re-applying the returned parameters to the same features reproduces the
      normalised matrix for 'standard' and 'robust'.  For 'minmax' it does exactly when
      no column is constant: the parameters keep the raw minimum and maximum, so a
      constant column divides by zero. */
  lemma NormalizationRoundTrip(rows: seq<seq<real>>, width: nat, name: string, stats: SpreadStats)
    requires Rectangular(rows, width) && StatsFit(stats, width)
    requires Normalization(rows, width, name, stats).Ok?
    ensures var n := Normalization(rows, width, name, stats).value;
      name != "minmax" ==> ApplyNormalization(rows, n.1, name) == Ok(n.0)
    ensures var n := Normalization(rows, width, name, stats).value;
      name == "minmax" ==>
        (ApplyNormalization(rows, n.1, name) == Ok(n.0) <==>
         forall j :: 0 <= j < width ==> !ConstantColumn(rows, width, j))
  {
    if name == "minmax" {
      var lo := ColumnMins(rows, width);
      var hi := ColumnMaxs(rows, width);
      var diff := Difference(hi, lo);
      forall j | 0 <= j < width
        ensures diff[j] == 0.0 <==> ConstantColumn(rows, width, j)
      {
        var c := Column(rows, width, j);
        RangeZeroIffConstant(c);
        if ConstantColumn(rows, width, j) {
          forall i, k | 0 <= i < |c| && 0 <= k < |c| ensures c[i] == c[k] {
            assert c[i] == rows[i][j] && c[k] == rows[k][j];
          }
        }
      }
      if forall j :: 0 <= j < width ==> !ConstantColumn(rows, width, j) {
        assert NonZeroSpread(diff) == diff;
      }
    }
  }

  /** Min-max normalisation maps every entry into [0, 1]; a constant column maps to 0. */
  lemma MinMaxWithinUnit(rows: seq<seq<real>>, width: nat, stats: SpreadStats)
    requires Rectangular(rows, width) && StatsFit(stats, width)
    requires Normalization(rows, width, "minmax", stats).Ok?
    ensures var n := Normalization(rows, width, "minmax", stats).value.0;
      forall i, j :: 0 <= i < |rows| && 0 <= j < width ==>
        0.0 <= n[i][j] <= 1.0 && (ConstantColumn(rows, width, j) ==> n[i][j] == 0.0)
  {
    var lo := ColumnMins(rows, width);
    var hi := ColumnMaxs(rows, width);
    var spread := NonZeroSpread(Difference(hi, lo));
    forall i, j | 0 <= i < |rows| && 0 <= j < width
      ensures 0.0 <= (rows[i][j] - lo[j]) / spread[j] <= 1.0
      ensures ConstantColumn(rows, width, j) ==> (rows[i][j] - lo[j]) / spread[j] == 0.0
    {
      var c := Column(rows, width, j);
      SeqMinMaxBounds(c);
      RangeZeroIffConstant(c);
      assert lo[j] <= rows[i][j] <= hi[j] by {
        assert c[i] == rows[i][j];
      }
      if hi[j] - lo[j] == 0.0 {
        assert spread[j] == 1.0;
      } else {
        RatioWithinUnit(rows[i][j] - lo[j], hi[j] - lo[j]);
      }
    }
  }
}
