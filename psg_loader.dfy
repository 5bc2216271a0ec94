/**
 * The bookkeeping of the first-generation PSG audio loader
 * (`layer2RLdiagnosis-v1/data_loader.py`): combining a patient's apnea and
 * non-apnea recordings into labelled rows, loading the patient folders,
 * splitting patients into train, validation and test lists, and assembling
 * the rows of a list of patients.
 *
 * File access is replaced by the folder contents given as input, and the
 * shuffle by the shuffled order given as input.
 */
module PsgLoader {
  import opened Wrappers
  import opened Numeric

  /** A loaded `.npy` array: a single 1-D segment, or a 2-D array of rows that all
      have the array's width. */
  datatype Recording = Flat(samples: seq<real>) | Rows(width: nat, rows: seq<seq<real>>)
  {
    predicate Valid()
    {
      Rows? ==> forall i :: 0 <= i < |rows| ==> |rows[i]| == width
    }

    /** The recording as rows: a 1-D segment becomes one row. */
    function AsRows(): seq<seq<real>>
    {
      if Flat? then [samples] else rows
    }

    function Width(): nat
    {
      if Flat? then |samples| else width
    }
  }

  /** One patient's entry: the stacked rows, their labels, the two counts and the
      common row width. */
  datatype PatientData = PatientData(features: seq<seq<real>>, labels: seq<real>, nApnea: nat, nNormal: nat, width: nat)

  function Constant(n: nat, x: real): (r: seq<real>)
    ensures |r| == n && forall i :: 0 <= i < n ==> r[i] == x
  {
    seq(n, i => x)
  }

  /** The combine step of `load_preprocessed_data`: the apnea rows labelled 1 above the
      non-apnea rows labelled 0.  Stacking arrays of different widths raises. */
  function CombinePatient(ap: Recording, nap: Recording): Result<PatientData>
  {
    if ap.Width() != nap.Width() then Err(ValueError("all the input array dimensions except for the concatenation axis must match exactly"))
    else
      var a, n := ap.AsRows(), nap.AsRows();
      Ok(PatientData(a + n, Constant(|a|, 1.0) + Constant(|n|, 0.0), |a|, |n|, ap.Width()))
  }

  /** A patient entry whose labels and counts agree with its rows. */
  predicate WellFormed(p: PatientData)
  {
    |p.labels| == |p.features| == p.nApnea + p.nNormal &&
    (forall i :: 0 <= i < |p.labels| ==> p.labels[i] == if i < p.nApnea then 1.0 else 0.0) &&
    (forall i :: 0 <= i < |p.features| ==> |p.features[i]| == p.width)
  }

  /** Combining succeeds exactly for equal widths; the result has one label per row,
      the apnea ones first, and a 1-D file counts as a single row. */
  lemma CombinePatientMeaning(ap: Recording, nap: Recording)
    requires ap.Valid() && nap.Valid()
    ensures CombinePatient(ap, nap).Ok? <==> ap.Width() == nap.Width()
    ensures CombinePatient(ap, nap).Ok? ==>
      var p := CombinePatient(ap, nap).value;
      WellFormed(p) && p.features == ap.AsRows() + nap.AsRows() &&
      p.nApnea == (if ap.Flat? then 1 else |ap.rows|) && p.nNormal == (if nap.Flat? then 1 else |nap.rows|)
  {
  }

  // ---------------------------------------------------------------- loading

  /** A patient folder: its name and, when both files exist, the two arrays. */
  datatype Folder = Folder(name: string, files: Option<(Recording, Recording)>)

  /** The entry a folder contributes, if any: folders without both files and folders
      whose arrays cannot be stacked are skipped. */
  function Contribution(f: Folder): Option<PatientData>
  {
    if f.files.None? then None
    else
      match CombinePatient(f.files.value.0, f.files.value.1)
      case Ok(p) => Some(p)
      case Err(_) => None
  }

  /** The dictionary built from the folders, in order. */
  function LoadedData(folders: seq<Folder>): map<string, PatientData>
  {
    if |folders| == 0 then map[]
    else
      var last := folders[|folders| - 1];
      var earlier := LoadedData(folders[..|folders| - 1]);
      match Contribution(last)
      case Some(p) => earlier[last.name := p]
      case None => earlier
  }

  /** The running count of loaded rows. */
  function TotalSamples(folders: seq<Folder>): nat
  {
    if |folders| == 0 then 0
    else
      var last := folders[|folders| - 1];
      TotalSamples(folders[..|folders| - 1]) + match Contribution(last) case Some(p) => |p.features| case None => 0
  }

  /** `load_preprocessed_data` over the patient folders' contents. */
  method LoadPreprocessedData(folders: seq<Folder>) returns (data: map<string, PatientData>, totalSamples: nat)
    ensures data == LoadedData(folders) && totalSamples == TotalSamples(folders)
  {
    data := map[];
    totalSamples := 0;
    var i := 0;
    while i < |folders|
      invariant 0 <= i <= |folders|
      invariant data == LoadedData(folders[..i]) && totalSamples == TotalSamples(folders[..i])
    {
      assert folders[..i + 1][..i] == folders[..i];
      var f := folders[i];
      if f.files.Some? {
        var combined := CombinePatient(f.files.value.0, f.files.value.1);
        if combined.Ok? {
          data := data[f.name := combined.value];
          totalSamples := totalSamples + |combined.value.features|;
        }
      }
      i := i + 1;
    }
    assert folders[..i] == folders;
  }

  /** A patient is loaded exactly when some folder of that name has both files with
      stackable arrays, and every loaded entry is well formed. */
  lemma {:induction false} LoadedDataMeaning(folders: seq<Folder>)
    requires forall f :: f in folders && f.files.Some? ==> f.files.value.0.Valid() && f.files.value.1.Valid()
    ensures forall name :: name in LoadedData(folders) <==>
              exists f :: f in folders && f.name == name && Contribution(f).Some?
    ensures forall name :: name in LoadedData(folders) ==> WellFormed(LoadedData(folders)[name])
  {
    if |folders| > 0 {
      var init := folders[..|folders| - 1];
      var last := folders[|folders| - 1];
      assert forall f :: f in folders <==> f in init || f == last;
      LoadedDataMeaning(init);
      if last.files.Some? {
        CombinePatientMeaning(last.files.value.0, last.files.value.1);
      }
    }
  }

  // ---------------------------------------------------------------- splitting

  /** Python's reading of a slice bound: a negative index counts from the end, and
      the result is clamped to the sequence. */
  function SliceIndex(k: int, n: nat): (r: nat)
    ensures r <= n
    ensures 0 <= k <= n ==> r == k
  {
    if k < 0 then (if n + k < 0 then 0 else n + k) else if k > n then n else k
  }

  /** `s[start:stop]` with Python's slice semantics (`None` for an omitted bound). */
  function PySlice<T>(s: seq<T>, start: Option<int>, stop: Option<int>): seq<T>
  {
    var lo := if start.None? then 0 else SliceIndex(start.value, |s|);
    var hi := if stop.None? then |s| else SliceIndex(stop.value, |s|);
    if lo < hi then s[lo..hi] else []
  }

  datatype Splits = Splits(train: seq<string>, validation: seq<string>, test: seq<string>)

  /** The ratio check of `create_patient_wise_splits`. */
  predicate RatiosSumToOne(trainRatio: real, valRatio: real, testRatio: real)
  {
    Abs(trainRatio + valRatio + testRatio - 1.0) <= 0.000001
  }

  /** The three slices of `create_patient_wise_splits` at the two cut counts. */
  function CutAt(shuffled: seq<string>, nTrain: int, nVal: int): Splits
  {
    Splits(PySlice(shuffled, None, Some(nTrain)),
           PySlice(shuffled, Some(nTrain), Some(nTrain + nVal)),
           PySlice(shuffled, Some(nTrain + nVal), None))
  }

  /** `int(n * ratio)`: the number of patients a ratio asks for. */
  function CutCount(n: nat, ratio: real): int
  {
    Trunc(n as real * ratio)
  }

  /** The slicing of `create_patient_wise_splits`, applied to the shuffled ids. */
  function SliceSplits(shuffled: seq<string>, trainRatio: real, valRatio: real): Splits
  {
    CutAt(shuffled, CutCount(|shuffled|, trainRatio), CutCount(|shuffled|, valRatio))
  }

  /** `create_patient_wise_splits` as written: the patients in their shuffled order
      are cut at `int(n * train_ratio)` and `int(n * val_ratio)` further on.  Only the
      sum of the ratios is checked. */
  function CreatePatientWiseSplits(shuffled: seq<string>, trainRatio: real, valRatio: real, testRatio: real): (r: Result<Splits>)
    ensures r.Err? <==> !RatiosSumToOne(trainRatio, valRatio, testRatio)
  {
    if !RatiosSumToOne(trainRatio, valRatio, testRatio) then Err(ValueError("Train, validation, and test ratios must sum to 1.0"))
    else Ok(SliceSplits(shuffled, trainRatio, valRatio))
  }

  /** A negative ratio passes the sum check and makes the lists overlap: with four
      patients and ratios (-0.5, 0.75, 0.75) the first list is `s[:-2]` and the last
      `s[1:]`, so the second patient is in both the training and the test list. */
  lemma NegativeRatioOverlaps()
    ensures CreatePatientWiseSplits(["p1", "p2", "p3", "p4"], -0.5, 0.75, 0.75)
            == Ok(Splits(["p1", "p2"], [], ["p2", "p3", "p4"]))
  {
    var s := ["p1", "p2", "p3", "p4"];
    assert CutCount(4, -0.5) == Trunc(4.0 * -0.5) == -2;
    assert CutCount(4, 0.75) == Trunc(4.0 * 0.75) == 3;
    assert s[0..2] == ["p1", "p2"];
    assert s[1..4] == ["p2", "p3", "p4"];
  }

  /** The split with the evidently intended guard: a negative ratio is refused like a
      bad sum. */
  function CreatePatientWiseSplitsChecked(shuffled: seq<string>, trainRatio: real, valRatio: real, testRatio: real): (r: Result<Splits>)
    ensures r.Err? <==> !RatiosSumToOne(trainRatio, valRatio, testRatio) || trainRatio < 0.0 || valRatio < 0.0 || testRatio < 0.0
  {
    if !RatiosSumToOne(trainRatio, valRatio, testRatio) then Err(ValueError("Train, validation, and test ratios must sum to 1.0"))
    else if trainRatio < 0.0 || valRatio < 0.0 || testRatio < 0.0 then Err(ValueError("ratios must be non-negative"))
    else Ok(SliceSplits(shuffled, trainRatio, valRatio))
  }

  /** The added guard changes nothing for non-negative ratios: there the split as
      written and the checked split agree, error or not. */
  lemma SplitsAgreeOnNonNegativeRatios(shuffled: seq<string>, trainRatio: real, valRatio: real, testRatio: real)
    requires trainRatio >= 0.0 && valRatio >= 0.0 && testRatio >= 0.0
    ensures CreatePatientWiseSplits(shuffled, trainRatio, valRatio, testRatio)
            == CreatePatientWiseSplitsChecked(shuffled, trainRatio, valRatio, testRatio)
  {
  }

  lemma TruncOfNonNegative(x: real)
    requires x >= 0.0
    ensures 0 <= Trunc(x) && Trunc(x) as real <= x
  {
  }

  /** With non-negative cut counts the slices are three consecutive pieces. */
  lemma CutAtPieces(shuffled: seq<string>, nTrain: nat, nVal: nat)
    ensures var a, b := SliceIndex(nTrain, |shuffled|), SliceIndex(nTrain + nVal, |shuffled|);
      a <= b && CutAt(shuffled, nTrain, nVal) == Splits(shuffled[..a], shuffled[a..b], shuffled[b..])
  {
  }

  /** With non-negative ratios the cut counts are non-negative. */
  lemma CutCountsNonNegative(n: nat, trainRatio: real, valRatio: real)
    requires trainRatio >= 0.0 && valRatio >= 0.0
    ensures CutCount(n, trainRatio) >= 0 && CutCount(n, valRatio) >= 0
  {
    NonNegativeProduct(n as real, trainRatio);
    NonNegativeProduct(n as real, valRatio);
  }

  lemma NonNegativeProduct(x: real, y: real)
    requires x >= 0.0 && y >= 0.0
    ensures x * y >= 0.0
  {
  }

  /** Three consecutive pieces of a sequence without repeats share no element. */
  lemma PiecesDisjoint(s: seq<string>, a: nat, b: nat)
    requires a <= b <= |s|
    requires forall i, j :: 0 <= i < j < |s| ==> s[i] != s[j]
    ensures forall x :: x in s[..a] ==> x !in s[a..b] && x !in s[b..]
    ensures forall x :: x in s[a..b] ==> x !in s[b..]
  {
    forall x | x in s[..a] ensures x !in s[a..b] && x !in s[b..] {
      var i :| 0 <= i < a && s[i] == x;
    }
    forall x | x in s[a..b] ensures x !in s[b..] {
      var i :| 0 <= i < b - a && s[a..b][i] == x;
      assert s[a + i] == x;
    }
  }

  /** With non-negative ratios the three lists, in order, are exactly the shuffled
      patients: so they are a permutation of the patient ids, and for distinct ids no
      patient is in two lists. */
  lemma CheckedSplitsPartition(ids: seq<string>, shuffled: seq<string>, trainRatio: real, valRatio: real, testRatio: real)
    requires multiset(shuffled) == multiset(ids)
    requires forall i, j :: 0 <= i < j < |ids| ==> ids[i] != ids[j]
    requires CreatePatientWiseSplitsChecked(shuffled, trainRatio, valRatio, testRatio).Ok?
    ensures var s := CreatePatientWiseSplitsChecked(shuffled, trainRatio, valRatio, testRatio).value;
      s.train + s.validation + s.test == shuffled &&
      multiset(s.train + s.validation + s.test) == multiset(ids) &&
      (forall x :: x in s.train ==> x !in s.validation && x !in s.test) &&
      (forall x :: x in s.validation ==> x !in s.test)
  {
    var a, b := CheckedSplitsPieces(shuffled, trainRatio, valRatio, testRatio);
    PiecesPartition(ids, shuffled, a, b);
  }

  /** A successful checked split cuts the shuffled ids at two points. */
  lemma CheckedSplitsPieces(shuffled: seq<string>, trainRatio: real, valRatio: real, testRatio: real) returns (a: nat, b: nat)
    requires CreatePatientWiseSplitsChecked(shuffled, trainRatio, valRatio, testRatio).Ok?
    ensures a <= b <= |shuffled|
    ensures CreatePatientWiseSplitsChecked(shuffled, trainRatio, valRatio, testRatio).value
            == Splits(shuffled[..a], shuffled[a..b], shuffled[b..])
  {
    var nTrain, nVal := CutCount(|shuffled|, trainRatio), CutCount(|shuffled|, valRatio);
    CutCountsNonNegative(|shuffled|, trainRatio, valRatio);
    CutAtPieces(shuffled, nTrain, nVal);
    a, b := SliceIndex(nTrain, |shuffled|), SliceIndex(nTrain + nVal, |shuffled|);
  }

  /** The three consecutive pieces of a permutation of distinct ids. */
  lemma PiecesPartition(ids: seq<string>, shuffled: seq<string>, a: nat, b: nat)
    requires a <= b <= |shuffled|
    requires multiset(shuffled) == multiset(ids)
    requires forall i, j :: 0 <= i < j < |ids| ==> ids[i] != ids[j]
    ensures var s := Splits(shuffled[..a], shuffled[a..b], shuffled[b..]);
      s.train + s.validation + s.test == shuffled &&
      multiset(s.train + s.validation + s.test) == multiset(ids) &&
      (forall x :: x in s.train ==> x !in s.validation && x !in s.test) &&
      (forall x :: x in s.validation ==> x !in s.test)
  {
    PiecesRejoin(shuffled, a, b);
    DistinctPermutation(ids, shuffled);
    PiecesDisjoint(shuffled, a, b);
  }

  lemma PiecesRejoin<T>(s: seq<T>, a: nat, b: nat)
    requires a <= b <= |s|
    ensures s[..a] + s[a..b] + s[b..] == s
  {
    assert s[..a] + s[a..b] == s[..b];
  }

  /** A permutation of distinct ids has distinct entries. */
  lemma DistinctPermutation(ids: seq<string>, shuffled: seq<string>)
    requires multiset(shuffled) == multiset(ids)
    requires forall i, j :: 0 <= i < j < |ids| ==> ids[i] != ids[j]
    ensures forall i, j :: 0 <= i < j < |shuffled| ==> shuffled[i] != shuffled[j]
  {
    DistinctCounts(ids);
    forall i, j | 0 <= i < j < |shuffled| ensures shuffled[i] != shuffled[j] {
      if shuffled[i] == shuffled[j] {
        TwoOccurrences(shuffled, i, j);
        assert false;
      }
    }
  }

  lemma {:induction false} DistinctCounts(ids: seq<string>)
    requires forall i, j :: 0 <= i < j < |ids| ==> ids[i] != ids[j]
    ensures forall x :: multiset(ids)[x] <= 1
  {
    if |ids| > 0 {
      var init := ids[..|ids| - 1];
      DistinctCounts(init);
      assert ids == init + [ids[|ids| - 1]];
      assert ids[|ids| - 1] !in init;
    }
  }

  lemma {:induction false} TwoOccurrences(s: seq<string>, i: int, j: int)
    requires 0 <= i < j < |s| && s[i] == s[j]
    ensures multiset(s)[s[i]] >= 2
  {
    assert s == s[..i] + [s[i]] + s[i + 1..j] + [s[j]] + s[j + 1..];
  }

  /** `n * x <= n` for a count `n` and a fraction `x`. */
  lemma ScaleWithinCount(n: real, x: real)
    requires n >= 0.0 && x <= 1.0
    ensures n * x <= n
  {
    assert n * (1.0 - x) >= 0.0 by { NonNegativeProduct(n, 1.0 - x); }
  }

  /** The split sizes are `int(n * ratio)` for the first two lists when the ratios are
      non-negative and sum to exactly 1; the test list takes the rest. */
  lemma SplitSizes(shuffled: seq<string>, trainRatio: real, valRatio: real, testRatio: real)
    requires trainRatio >= 0.0 && valRatio >= 0.0 && testRatio >= 0.0 && trainRatio + valRatio + testRatio == 1.0
    ensures var s := CreatePatientWiseSplitsChecked(shuffled, trainRatio, valRatio, testRatio);
      s.Ok? && |s.value.train| == CutCount(|shuffled|, trainRatio) &&
      |s.value.validation| == CutCount(|shuffled|, valRatio) &&
      |s.value.test| == |shuffled| - CutCount(|shuffled|, trainRatio) - CutCount(|shuffled|, valRatio)
  {
    assert RatiosSumToOne(trainRatio, valRatio, testRatio);
    CutCountsFit(|shuffled|, trainRatio, valRatio);
    CutAtSizes(shuffled, CutCount(|shuffled|, trainRatio), CutCount(|shuffled|, valRatio));
  }

  /** Cut counts that fit give pieces of exactly those sizes. */
  lemma CutAtSizes(shuffled: seq<string>, nTrain: int, nVal: int)
    requires 0 <= nTrain && 0 <= nVal && nTrain + nVal <= |shuffled|
    ensures |CutAt(shuffled, nTrain, nVal).train| == nTrain
    ensures |CutAt(shuffled, nTrain, nVal).validation| == nVal
    ensures |CutAt(shuffled, nTrain, nVal).test| == |shuffled| - nTrain - nVal
  {
    CutAtPieces(shuffled, nTrain, nVal);
  }

  /** Cut counts from non-negative ratios summing to at most 1 fit in the list. */
  lemma CutCountsFit(n: nat, trainRatio: real, valRatio: real)
    requires trainRatio >= 0.0 && valRatio >= 0.0 && trainRatio + valRatio <= 1.0
    ensures 0 <= CutCount(n, trainRatio) && 0 <= CutCount(n, valRatio)
    ensures CutCount(n, trainRatio) + CutCount(n, valRatio) <= n
  {
    ProductsFit(n as real, trainRatio, valRatio);
    TruncSumFits(n as real * trainRatio, n as real * valRatio, n);
  }

  /** Scaling a count by two non-negative fractions summing to at most 1 gives two
      non-negative amounts that together fit in the count. */
  lemma ProductsFit(m: real, x: real, y: real)
    requires m >= 0.0 && x >= 0.0 && y >= 0.0 && x + y <= 1.0
    ensures 0.0 <= m * x && 0.0 <= m * y && m * x + m * y <= m
  {
    NonNegativeProduct(m, x);
    NonNegativeProduct(m, y);
    ScaleWithinCount(m, x + y);
    assert m * (x + y) == m * x + m * y;
  }

  /** Truncations of two non-negative reals whose sum is at most n sum to at most n. */
  lemma TruncSumFits(x: real, y: real, n: nat)
    requires 0.0 <= x && 0.0 <= y && x + y <= n as real
    ensures 0 <= Trunc(x) && 0 <= Trunc(y) && Trunc(x) + Trunc(y) <= n
  {
    TruncOfNonNegative(x);
    TruncOfNonNegative(y);
    assert (Trunc(x) + Trunc(y)) as real <= n as real;
  }

  /** Five patients at 0.6/0.2/0.2 split 3/1/1 and twenty at 0.7/0.15/0.15 split
      14/3/3. */
  lemma SplitSizesOfExamples(five: seq<string>, twenty: seq<string>)
    requires |five| == 5 && |twenty| == 20
    ensures var s := CreatePatientWiseSplitsChecked(five, 0.6, 0.2, 0.2);
      s.Ok? && |s.value.train| == 3 && |s.value.validation| == 1 && |s.value.test| == 1
    ensures var s := CreatePatientWiseSplitsChecked(twenty, 0.7, 0.15, 0.15);
      s.Ok? && |s.value.train| == 14 && |s.value.validation| == 3 && |s.value.test| == 3
  {
    SplitSizes(five, 0.6, 0.2, 0.2);
    assert CutCount(5, 0.6) == Trunc(5.0 * 0.6) == 3 && CutCount(5, 0.2) == Trunc(5.0 * 0.2) == 1;
    SplitSizes(twenty, 0.7, 0.15, 0.15);
    assert CutCount(20, 0.7) == Trunc(20.0 * 0.7) == 14 && CutCount(20, 0.15) == Trunc(20.0 * 0.15) == 3;
  }

  // ---------------------------------------------------------------- assembling rows

  datatype Prepared = Prepared(features: seq<seq<real>>, labels: seq<real>, patientIds: seq<string>)

  /** The listed patients that are present in the data, in list order. */
  function Found(data: map<string, PatientData>, list: seq<string>): seq<string>
  {
    if |list| == 0 then []
    else Found(data, list[..|list| - 1]) + (if list[|list| - 1] in data then [list[|list| - 1]] else [])
  }

  function Repeat(id: string, n: nat): (r: seq<string>)
    ensures |r| == n && forall i :: 0 <= i < n ==> r[i] == id
  {
    seq(n, i => id)
  }

  /** The stacked rows, labels and per-row ids of the listed patients. */
  function Gathered(data: map<string, PatientData>, list: seq<string>): Prepared
  {
    if |list| == 0 then Prepared([], [], [])
    else
      var g := Gathered(data, list[..|list| - 1]);
      var id := list[|list| - 1];
      if id in data then
        Prepared(g.features + data[id].features, g.labels + data[id].labels,
                 g.patientIds + Repeat(id, |data[id].features|))
      else g
  }

  /** Every found patient's rows have the same width, as stacking requires. */
  predicate SameWidth(data: map<string, PatientData>, list: seq<string>)
  {
    forall i, j :: 0 <= i < |list| && 0 <= j < |list| && list[i] in data && list[j] in data ==>
      data[list[i]].width == data[list[j]].width
  }

  /** `prepare_features_from_preprocessed`: the rows of the listed patients; no patient
      found, or rows of different widths, raise ValueError. */
  method PrepareFeaturesFromPreprocessed(data: map<string, PatientData>, list: seq<string>) returns (r: Result<Prepared>)
    ensures r.Err? <==> |Found(data, list)| == 0 || !SameWidth(data, list)
    ensures r.Ok? ==> r.value == Gathered(data, list)
  {
    var features: seq<seq<real>> := [];
    var labels: seq<real> := [];
    var ids: seq<string> := [];
    var any := false;
    var i := 0;
    while i < |list|
      invariant 0 <= i <= |list|
      invariant Prepared(features, labels, ids) == Gathered(data, list[..i])
      invariant any <==> |Found(data, list[..i])| > 0
    {
      assert list[..i + 1][..i] == list[..i];
      var id := list[i];
      if id in data {
        features := features + data[id].features;
        labels := labels + data[id].labels;
        ids := ids + Repeat(id, |data[id].features|);
        any := true;
      }
      i := i + 1;
    }
    assert list[..i] == list;
    if !any {
      r := Err(ValueError("No data found for the specified patients"));
    } else if !SameWidth(data, list) {
      r := Err(ValueError("all the input array dimensions except for the concatenation axis must match exactly"));
    } else {
      r := Ok(Prepared(features, labels, ids));
    }
  }

  /** For well-formed entries the three outputs have one element per row; the ids are
      exactly the found patients', and a patient absent from the data contributes
      nothing. */
  lemma {:induction false} GatheredMeaning(data: map<string, PatientData>, list: seq<string>)
    requires forall id :: id in data ==> WellFormed(data[id])
    ensures var g := Gathered(data, list); |g.features| == |g.labels| == |g.patientIds|
    ensures forall k :: 0 <= k < |Gathered(data, list).patientIds| ==>
              Gathered(data, list).patientIds[k] in list && Gathered(data, list).patientIds[k] in data
    ensures |Found(data, list)| == 0 ==> Gathered(data, list) == Prepared([], [], [])
  {
    if |list| > 0 {
      var init := list[..|list| - 1];
      GatheredMeaning(data, init);
      var g := Gathered(data, init);
      var id := list[|list| - 1];
      forall k | 0 <= k < |Gathered(data, list).patientIds|
        ensures Gathered(data, list).patientIds[k] in list && Gathered(data, list).patientIds[k] in data
      {
        if k < |g.patientIds| {
          assert Gathered(data, list).patientIds[k] == g.patientIds[k];
          assert g.patientIds[k] in init;
        }
      }
    }
  }

  /** When every listed patient has `2 * k` rows (k apnea and k normal segments), the
      assembled rows number patients × k × 2. */
  lemma {:induction false} GatheredRowCount(data: map<string, PatientData>, list: seq<string>, k: nat)
    requires forall id :: id in list ==> id in data && |data[id].features| == 2 * k
    ensures |Gathered(data, list).features| == |list| * k * 2
  {
    if |list| > 0 {
      GatheredRowCount(data, list[..|list| - 1], k);
      assert list[|list| - 1] in list;
    }
  }
}
