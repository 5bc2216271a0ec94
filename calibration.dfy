/**
 * Binned expected calibration error, the computation shared by
 * `calculate_ece` (v1 utils), the ECE block of the v1 environment's episode
 * metrics and `_calculate_ece` of the model-2 environment.
 *
 * Bin k of `bins` equal-width bins holds the confidences c with
 * k/bins < c <= (k+1)/bins; a bin contributes
 * count * |mean confidence - mean label|, and the error is the total over
 * the bins divided by the number of samples.  The boundaries are exact
 * rationals here, where numpy's `linspace` gives their nearest floats.
 */
module Calibration {
  import opened Numeric

  predicate InBin(c: real, k: nat, bins: nat)
  {
    0 < bins && k < bins && (k as real) / (bins as real) < c <= ((k + 1) as real) / (bins as real)
  }

  /** Number of samples whose confidence falls in bin k. */
  function BinCount(cs: seq<real>, k: nat, bins: nat): nat
  {
    if |cs| == 0 then 0
    else BinCount(cs[..|cs| - 1], k, bins) + (if InBin(cs[|cs| - 1], k, bins) then 1 else 0)
  }

  /** Sum of the confidences in bin k. */
  function BinConfidenceSum(cs: seq<real>, k: nat, bins: nat): real
  {
    if |cs| == 0 then 0.0
    else BinConfidenceSum(cs[..|cs| - 1], k, bins) + (if InBin(cs[|cs| - 1], k, bins) then cs[|cs| - 1] else 0.0)
  }

  /** Sum of the labels of the samples whose confidence falls in bin k. */
  function BinLabelSum(cs: seq<real>, ls: seq<real>, k: nat, bins: nat): real
    requires |cs| == |ls|
  {
    if |cs| == 0 then 0.0
    else BinLabelSum(cs[..|cs| - 1], ls[..|ls| - 1], k, bins) + (if InBin(cs[|cs| - 1], k, bins) then ls[|ls| - 1] else 0.0)
  }

  /** Contribution of bin k: count * |mean confidence - mean label|, nothing for an empty bin. */
  function BinGap(cs: seq<real>, ls: seq<real>, k: nat, bins: nat): real
    requires |cs| == |ls|
  {
    Contribution(BinCount(cs, k, bins), BinConfidenceSum(cs, k, bins), BinLabelSum(cs, ls, k, bins))
  }

  /** count * |confidenceSum / count - labelSum / count| for a bin of `count` samples. */
  function Contribution(count: nat, confidenceSum: real, labelSum: real): real
  {
    if count == 0 then 0.0
    else (count as real) * Abs(confidenceSum / (count as real) - labelSum / (count as real))
  }

  /** Total contribution of bins 0 .. upTo-1. */
  function GapTotal(cs: seq<real>, ls: seq<real>, upTo: nat, bins: nat): real
    requires |cs| == |ls|
  {
    if upTo == 0 then 0.0 else GapTotal(cs, ls, upTo - 1, bins) + BinGap(cs, ls, upTo - 1, bins)
  }

  /** The calibration error of a non-empty sample. */
  function Ece(cs: seq<real>, ls: seq<real>, bins: nat): real
    requires |cs| == |ls| && |cs| > 0
  {
    GapTotal(cs, ls, bins, bins) / (|cs| as real)
  }

  /** Statistics of one bin, computed by a pass over the samples. */
  method BinStatistics(cs: seq<real>, ls: seq<real>, k: nat, bins: nat)
    returns (count: nat, confidenceSum: real, labelSum: real)
    requires |cs| == |ls|
    ensures count == BinCount(cs, k, bins)
    ensures confidenceSum == BinConfidenceSum(cs, k, bins)
    ensures labelSum == BinLabelSum(cs, ls, k, bins)
  {
    count, confidenceSum, labelSum := 0, 0.0, 0.0;
    var i := 0;
    while i < |cs|
      invariant 0 <= i <= |cs|
      invariant count == BinCount(cs[..i], k, bins)
      invariant confidenceSum == BinConfidenceSum(cs[..i], k, bins)
      invariant labelSum == BinLabelSum(cs[..i], ls[..i], k, bins)
    {
      assert cs[..i + 1][..i] == cs[..i];
      assert ls[..i + 1][..i] == ls[..i];
      if InBin(cs[i], k, bins) {
        count := count + 1;
        confidenceSum := confidenceSum + cs[i];
        labelSum := labelSum + ls[i];
      }
      i := i + 1;
    }
    assert cs[..|cs|] == cs;
    assert ls[..|ls|] == ls;
  }

  /** The loop over the bins: the sum of the per-bin contributions. */
  method BinnedGapTotal(cs: seq<real>, ls: seq<real>, bins: nat) returns (total: real)
    requires |cs| == |ls|
    ensures total == GapTotal(cs, ls, bins, bins)
  {
    total := 0.0;
    var k := 0;
    while k < bins
      invariant 0 <= k <= bins
      invariant total == GapTotal(cs, ls, k, bins)
    {
      var count, confidenceSum, labelSum := BinStatistics(cs, ls, k, bins);
      if count > 0 {
        total := total + (count as real) * Abs(confidenceSum / (count as real) - labelSum / (count as real));
      }
      k := k + 1;
    }
  }

  /** How many of the bins 0 .. upTo-1 contain c. */
  function BinsContaining(c: real, upTo: nat, bins: nat): nat
  {
    if upTo == 0 then 0 else BinsContaining(c, upTo - 1, bins) + (if InBin(c, upTo - 1, bins) then 1 else 0)
  }

  /** The bins partition (0, 1]: a confidence in (0, 1] lies in exactly one bin, and
      any other value (0 included) in none. */
  lemma BinsPartitionUnitInterval(c: real, bins: nat)
    requires bins > 0
    ensures BinsContaining(c, bins, bins) == (if 0.0 < c <= 1.0 then 1 else 0)
  {
    BinsContainingPrefix(c, bins, bins);
    assert (bins as real) / (bins as real) == 1.0;
  }

  lemma {:induction false} BinsContainingPrefix(c: real, upTo: nat, bins: nat)
    requires 0 < bins && upTo <= bins
    ensures BinsContaining(c, upTo, bins) == (if 0.0 < c <= (upTo as real) / (bins as real) then 1 else 0)
  {
    if upTo > 0 {
      BinsContainingPrefix(c, upTo - 1, bins);
      var b := bins as real;
      DivMonotone((upTo - 1) as real, upTo as real, b);
      DivMonotone(0.0, (upTo - 1) as real, b);
    }
  }

  /** Number of samples whose confidence lies in (0, 1]. */
  function CountInUnitInterval(cs: seq<real>): nat
  {
    if |cs| == 0 then 0
    else CountInUnitInterval(cs[..|cs| - 1]) + (if 0.0 < cs[|cs| - 1] <= 1.0 then 1 else 0)
  }

  /** Sum of the bin counts of bins 0 .. upTo-1. */
  function TotalBinCount(cs: seq<real>, upTo: nat, bins: nat): nat
  {
    if upTo == 0 then 0 else TotalBinCount(cs, upTo - 1, bins) + BinCount(cs, upTo - 1, bins)
  }

  lemma {:induction false} TotalBinCountStep(cs: seq<real>, upTo: nat, bins: nat)
    requires |cs| > 0
    ensures TotalBinCount(cs, upTo, bins)
         == TotalBinCount(cs[..|cs| - 1], upTo, bins) + BinsContaining(cs[|cs| - 1], upTo, bins)
  {
    if upTo > 0 {
      TotalBinCountStep(cs, upTo - 1, bins);
    }
  }

  /** Over all the bins, every sample with confidence in (0, 1] is counted once. */
  lemma {:induction false} TotalBinCountIsInUnitInterval(cs: seq<real>, bins: nat)
    requires bins > 0
    ensures TotalBinCount(cs, bins, bins) == CountInUnitInterval(cs)
    ensures TotalBinCount(cs, bins, bins) <= |cs|
  {
    if |cs| == 0 {
      TotalBinCountOfEmpty(cs, bins, bins);
    } else {
      TotalBinCountIsInUnitInterval(cs[..|cs| - 1], bins);
      TotalBinCountStep(cs, bins, bins);
      BinsPartitionUnitInterval(cs[|cs| - 1], bins);
    }
  }

  lemma {:induction false} TotalBinCountOfEmpty(cs: seq<real>, upTo: nat, bins: nat)
    requires |cs| == 0
    ensures TotalBinCount(cs, upTo, bins) == 0
  {
    if upTo > 0 {
      TotalBinCountOfEmpty(cs, upTo - 1, bins);
    }
  }

  lemma {:induction false} BinSumsWithinCount(cs: seq<real>, ls: seq<real>, k: nat, bins: nat)
    requires |cs| == |ls|
    requires forall i :: 0 <= i < |ls| ==> 0.0 <= ls[i] <= 1.0
    ensures 0.0 <= BinConfidenceSum(cs, k, bins) <= BinCount(cs, k, bins) as real
    ensures 0.0 <= BinLabelSum(cs, ls, k, bins) <= BinCount(cs, k, bins) as real
  {
    if |cs| > 0 {
      BinSumsWithinCount(cs[..|cs| - 1], ls[..|ls| - 1], k, bins);
      if InBin(cs[|cs| - 1], k, bins) {
        var b := bins as real;
        assert 0.0 <= (k as real) / b;
        assert ((k + 1) as real) / b <= 1.0 by {
          assert ((k + 1) as real) <= b;
        }
      }
    }
  }

  lemma ScaledMeanGap(n: real, a: real, b: real)
    requires n > 0.0
    ensures n * Abs(a / n - b / n) == Abs(a - b)
  {
    var d := a / n - b / n;
    assert n * d == a - b;
    if d < 0.0 {
      assert n * (-d) == -(n * d);
    }
  }

  /** A bin contributes at most its count when labels lie in [0, 1]. */
  lemma BinGapWithinCount(cs: seq<real>, ls: seq<real>, k: nat, bins: nat)
    requires |cs| == |ls|
    requires forall i :: 0 <= i < |ls| ==> 0.0 <= ls[i] <= 1.0
    ensures 0.0 <= BinGap(cs, ls, k, bins) <= BinCount(cs, k, bins) as real
  {
    BinSumsWithinCount(cs, ls, k, bins);
    ContributionWithinCount(BinCount(cs, k, bins), BinConfidenceSum(cs, k, bins), BinLabelSum(cs, ls, k, bins));
  }

  lemma ContributionWithinCount(count: nat, a: real, b: real)
    requires 0.0 <= a <= count as real && 0.0 <= b <= count as real
    ensures 0.0 <= Contribution(count, a, b) <= count as real
  {
    if count > 0 {
      ScaledMeanGap(count as real, a, b);
    }
  }

  lemma {:induction false} GapTotalWithinCount(cs: seq<real>, ls: seq<real>, upTo: nat, bins: nat)
    requires |cs| == |ls|
    requires forall i :: 0 <= i < |ls| ==> 0.0 <= ls[i] <= 1.0
    ensures 0.0 <= GapTotal(cs, ls, upTo, bins) <= TotalBinCount(cs, upTo, bins) as real
  {
    if upTo > 0 {
      GapTotalWithinCount(cs, ls, upTo - 1, bins);
      BinGapWithinCount(cs, ls, upTo - 1, bins);
    }
  }

  /** With labels in [0, 1] the summed bin contributions never exceed the sample count,
      so the calibration error lies in [0, 1]. */
  lemma GapTotalBounded(cs: seq<real>, ls: seq<real>, bins: nat)
    requires |cs| == |ls|
    requires forall i :: 0 <= i < |ls| ==> 0.0 <= ls[i] <= 1.0
    ensures 0.0 <= GapTotal(cs, ls, bins, bins) <= |cs| as real
  {
    GapTotalWithinCount(cs, ls, bins, bins);
    if bins > 0 {
      TotalBinCountIsInUnitInterval(cs, bins);
    }
  }

  lemma EceBounded(cs: seq<real>, ls: seq<real>, bins: nat)
    requires |cs| == |ls| && |cs| > 0
    requires forall i :: 0 <= i < |ls| ==> 0.0 <= ls[i] <= 1.0
    ensures 0.0 <= Ece(cs, ls, bins) <= 1.0
  {
    GapTotalBounded(cs, ls, bins);
    RatioWithinUnit(GapTotal(cs, ls, bins, bins), |cs| as real);
  }

  /** No confidence lies in two different bins. */
  lemma BinsExclusive(c: real, j: nat, k: nat, bins: nat)
    requires j != k
    ensures !(InBin(c, j, bins) && InBin(c, k, bins))
  {
    if 0 < bins {
      var b := bins as real;
      if j < k {
        DivMonotone((j + 1) as real, k as real, b);
      } else {
        DivMonotone((k + 1) as real, j as real, b);
      }
    }
  }

  lemma {:induction false} ConstantConfidenceSums(cs: seq<real>, ls: seq<real>, c: real, k: nat, bins: nat)
    requires |cs| == |ls|
    requires forall i :: 0 <= i < |cs| ==> cs[i] == c
    ensures BinCount(cs, k, bins) == (if InBin(c, k, bins) then |cs| else 0)
    ensures InBin(c, k, bins) ==> BinConfidenceSum(cs, k, bins) == c * (|cs| as real)
    ensures InBin(c, k, bins) ==> BinLabelSum(cs, ls, k, bins) == Sum(ls)
  {
    if |cs| > 0 {
      ConstantConfidenceSums(cs[..|cs| - 1], ls[..|ls| - 1], c, k, bins);
    }
  }

  lemma {:induction false} ConstantConfidenceGapTotal(cs: seq<real>, ls: seq<real>, c: real, kc: nat, upTo: nat, bins: nat)
    requires |cs| == |ls|
    requires forall i :: 0 <= i < |cs| ==> cs[i] == c
    requires InBin(c, kc, bins)
    ensures GapTotal(cs, ls, upTo, bins) == (if upTo > kc then BinGap(cs, ls, kc, bins) else 0.0)
  {
    if upTo > 0 {
      ConstantConfidenceGapTotal(cs, ls, c, kc, upTo - 1, bins);
      ConstantConfidenceSums(cs, ls, c, upTo - 1, bins);
      if upTo - 1 != kc {
        BinsExclusive(c, upTo - 1, kc, bins);
      }
    }
  }

  lemma AbsOfQuotient(x: real, n: real)
    requires n > 0.0
    ensures Abs(x) / n == Abs(x / n)
  {
    if x < 0.0 {
      assert -x / n == -(x / n);
      DivMonotone(x, 0.0, n);
    } else {
      DivMonotone(0.0, x, n);
    }
  }

  /** When every sample carries the same confidence c, the calibration error is the
      distance between c and the mean label. */
  lemma ConstantConfidenceGap(cs: seq<real>, ls: seq<real>, c: real, kc: nat, bins: nat)
    requires |cs| == |ls| > 0
    requires forall i :: 0 <= i < |cs| ==> cs[i] == c
    requires InBin(c, kc, bins)
    ensures Ece(cs, ls, bins) == Abs(c - Sum(ls) / (|ls| as real))
  {
    ConstantConfidenceGapTotal(cs, ls, c, kc, bins, bins);
    ConstantConfidenceSums(cs, ls, c, kc, bins);
    GapOverCount(|cs|, BinConfidenceSum(cs, kc, bins), BinLabelSum(cs, ls, kc, bins), c);
  }

  /** The arithmetic of a single occupied bin: its contribution over its count is the
      distance between the shared confidence and the mean label. */
  lemma GapOverCount(count: nat, a: real, b: real, c: real)
    requires count > 0 && a == c * (count as real)
    ensures Contribution(count, a, b) / (count as real) == Abs(c - b / (count as real))
  {
    var n := count as real;
    ScaledMeanGap(n, a, b);
    AbsOfQuotient(a - b, n);
    assert (a - b) / n == c - b / n;
  }
}
