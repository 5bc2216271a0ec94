/**
 * The bookkeeping of the second-generation PSG audio loader
 * (`layer2RLdiagnosis-model-2/data_loader.py`): grouping the `*_ap.npy` and
 * `*_nap.npy` file names by patient, loading and shuffling each patient's
 * segments, the dataset statistics, the environment data, sample lookup, and the
 * pad, truncate and segment steps of the audio preprocessor.
 *
 * File names are base names; the arrays the files hold and the shuffle of each
 * patient are given as inputs.  A Python dictionary is modelled as a map together
 * with its insertion order.
 */
module DatasetLoader {
  import opened Wrappers
  import opened Numeric

  // ---------------------------------------------------------------- file names

  /** `name.split('_')[0]`: the text before the first underscore. */
  function PatientId(name: string): (r: string)
    ensures |r| <= |name| && r == name[..|r|]
    ensures '_' !in r
    ensures |r| < |name| ==> name[|r|] == '_'
  {
    if |name| == 0 || name[0] == '_' then "" else [name[0]] + PatientId(name[1..])
  }

  /** Python's `sub in s` on strings. */
  predicate Contains(s: string, sub: string)
  {
    exists i :: 0 <= i <= |s| - |sub| && OccursAt(s, sub, i)
  }

  predicate OccursAt(s: string, sub: string, i: int)
  {
    0 <= i <= |s| - |sub| && s[i..i + |sub|] == sub
  }

  const ApneaSuffix := "_ap.npy"
  const NormalSuffix := "_nap.npy"

  /** The two file slots of a patient. */
  datatype Slots = Slots(ap: Option<string>, nap: Option<string>)

  /** The patient-to-files dictionary: its keys in insertion order and its entries. */
  datatype Groups = Groups(order: seq<string>, slots: map<string, Slots>)

  /** A dictionary's order lists each of its keys exactly once. */
  ghost predicate OrderMatches<V>(order: seq<string>, m: map<string, V>)
  {
    (forall i, j :: 0 <= i < j < |order| ==> order[i] != order[j]) &&
    (forall k :: k in order <==> k in m)
  }

  /** One file name recorded in the dictionary: a new patient gets empty slots first,
      then the apnea test takes precedence over the normal one. */
  function AddFile(g: Groups, name: string): Groups
  {
    var id := PatientId(name);
    var order := if id in g.slots then g.order else g.order + [id];
    var s := if id in g.slots then g.slots[id] else Slots(None, None);
    var s' := if Contains(name, ApneaSuffix) then s.(ap := Some(name))
              else if Contains(name, NormalSuffix) then s.(nap := Some(name))
              else s;
    Groups(order, g.slots[id := s'])
  }

  /** The dictionary after recording the names in order. */
  function Grouped(names: seq<string>): Groups
  {
    if |names| == 0 then Groups([], map[])
    else AddFile(Grouped(names[..|names| - 1]), names[|names| - 1])
  }

  /** The grouping loop of `_load_data` over the apnea names followed by the normal
      ones. */
  method GroupFiles(apFiles: seq<string>, napFiles: seq<string>) returns (g: Groups)
    ensures g == Grouped(apFiles + napFiles)
  {
    var names := apFiles + napFiles;
    g := Groups([], map[]);
    var i := 0;
    while i < |names|
      invariant 0 <= i <= |names|
      invariant g == Grouped(names[..i])
    {
      assert names[..i + 1][..i] == names[..i];
      ghost var before := g;
      var name := names[i];
      var id := PatientId(name);
      if id !in g.slots {
        g := Groups(g.order + [id], g.slots[id := Slots(None, None)]);
      }
      if Contains(name, ApneaSuffix) {
        g := g.(slots := g.slots[id := g.slots[id].(ap := Some(name))]);
      } else if Contains(name, NormalSuffix) {
        g := g.(slots := g.slots[id := g.slots[id].(nap := Some(name))]);
      }
      assert g == AddFile(before, name);
      i := i + 1;
    }
    assert names[..i] == names;
  }

  /** The patients are the ids of the names, each listed once in order of first
      appearance. */
  lemma {:induction false} GroupedKeys(names: seq<string>)
    ensures var g := Grouped(names); OrderMatches(g.order, g.slots)
    ensures forall id :: id in Grouped(names).slots <==> exists n :: n in names && PatientId(n) == id
  {
    if |names| > 0 {
      var init := names[..|names| - 1];
      var last := names[|names| - 1];
      assert forall n :: n in names <==> n in init || n == last;
      GroupedKeys(init);
    }
  }

  /** A filled apnea slot holds a name of that patient containing `_ap.npy`, a filled
      normal slot one containing `_nap.npy` but not `_ap.npy`, and a slot is empty only
      when no such name was given. */
  lemma {:induction false} GroupedSlots(names: seq<string>, id: string)
    requires id in Grouped(names).slots
    ensures var s := Grouped(names).slots[id];
      (s.ap.Some? ==> s.ap.value in names && PatientId(s.ap.value) == id && Contains(s.ap.value, ApneaSuffix)) &&
      (s.ap.None? <==> forall n :: n in names && PatientId(n) == id ==> !Contains(n, ApneaSuffix)) &&
      (s.nap.Some? ==> s.nap.value in names && PatientId(s.nap.value) == id &&
                       Contains(s.nap.value, NormalSuffix) && !Contains(s.nap.value, ApneaSuffix)) &&
      (s.nap.None? <==> forall n :: n in names && PatientId(n) == id ==> Contains(n, ApneaSuffix) || !Contains(n, NormalSuffix))
  {
    var init := names[..|names| - 1];
    var last := names[|names| - 1];
    assert forall n :: n in names <==> n in init || n == last;
    if id in Grouped(init).slots {
      GroupedSlots(init, id);
    } else {
      GroupedKeys(init);
    }
  }

  // ---------------------------------------------------------------- loading

  /** A loaded 2-D `.npy` array of segments, all of the array's width. */
  datatype SegmentArray = SegmentArray(width: nat, rows: seq<seq<real>>)

  /** One patient's entry: the shuffled segments and labels and the two counts. */
  datatype PatientRecord = PatientRecord(segments: seq<seq<real>>, labels: seq<int>, apCount: nat, normalCount: nat)

  /** `indices` is a permutation of `0 .. n-1`, as `np.random.permutation(n)` returns. */
  predicate IsPermutation(indices: seq<nat>, n: nat)
  {
    |indices| == n &&
    (forall i :: 0 <= i < n ==> indices[i] < n) &&
    (forall i, j :: 0 <= i < j < n ==> indices[i] != indices[j])
  }

  /** One patient's load: the apnea segments (label 1) then the normal ones (label 0),
      reordered by the shuffle.  Concatenating arrays of different widths raises. */
  function LoadPatient(ap: SegmentArray, nap: SegmentArray, shuffle: seq<nat>): Result<PatientRecord>
    requires IsPermutation(shuffle, |ap.rows| + |nap.rows|)
  {
    if ap.width != nap.width then Err(ValueError("all the input array dimensions except for the concatenation axis must match exactly"))
    else
      var all := ap.rows + nap.rows;
      Ok(PatientRecord(seq(|all|, i requires 0 <= i < |all| => all[shuffle[i]]),
                       seq(|all|, i requires 0 <= i < |all| => if shuffle[i] < |ap.rows| then 1 else 0),
                       |ap.rows|, |nap.rows|))
  }

  /** A record whose labels match its segments and counts. */
  predicate WellFormed(r: PatientRecord)
  {
    |r.segments| == |r.labels| == r.apCount + r.normalCount &&
    forall i :: 0 <= i < |r.labels| ==> r.labels[i] == 0 || r.labels[i] == 1
  }

  /** The shuffle moves each segment together with its label: the i-th label is 1
      exactly when the i-th segment came from the apnea file. */
  lemma LoadPatientMeaning(ap: SegmentArray, nap: SegmentArray, shuffle: seq<nat>)
    requires IsPermutation(shuffle, |ap.rows| + |nap.rows|)
    ensures LoadPatient(ap, nap, shuffle).Ok? <==> ap.width == nap.width
    ensures LoadPatient(ap, nap, shuffle).Ok? ==>
      var r := LoadPatient(ap, nap, shuffle).value;
      WellFormed(r) && r.apCount == |ap.rows| && r.normalCount == |nap.rows| &&
      forall i :: 0 <= i < |r.segments| ==>
        r.segments[i] == (ap.rows + nap.rows)[shuffle[i]] &&
        (r.labels[i] == 1 <==> shuffle[i] < |ap.rows|) &&
        (shuffle[i] < |ap.rows| ==> r.segments[i] == ap.rows[shuffle[i]]) &&
        (shuffle[i] >= |ap.rows| ==> r.segments[i] == nap.rows[shuffle[i] - |ap.rows|])
  {
  }

  /** The loaded dataset: `patient_data` with its insertion order. */
  datatype PatientTable = PatientTable(order: seq<string>, records: map<string, PatientRecord>)

  /** Both files of a patient are named and readable. */
  predicate Loadable(s: Slots, arrays: map<string, SegmentArray>)
  {
    s.ap.Some? && s.nap.Some? && s.ap.value in arrays && s.nap.value in arrays
  }

  /** The shuffles cover every loadable patient with a permutation of the right size. */
  predicate ShufflesFit(g: Groups, arrays: map<string, SegmentArray>, shuffles: map<string, seq<nat>>)
  {
    forall id :: id in g.slots && Loadable(g.slots[id], arrays) ==>
      id in shuffles &&
      IsPermutation(shuffles[id], |arrays[g.slots[id].ap.value].rows| + |arrays[g.slots[id].nap.value].rows|)
  }

  /** The entry of a patient, or None when a file is missing, unreadable or the
      arrays do not concatenate (the patient is skipped). */
  function PatientEntry(g: Groups, arrays: map<string, SegmentArray>, shuffles: map<string, seq<nat>>, id: string): Option<PatientRecord>
    requires ShufflesFit(g, arrays, shuffles) && id in g.slots
  {
    var s := g.slots[id];
    if !Loadable(s, arrays) then None
    else
      match LoadPatient(arrays[s.ap.value], arrays[s.nap.value], shuffles[id])
      case Ok(r) => Some(r)
      case Err(_) => None
  }

  /** Storing an entry in the dictionary. */
  function Store(t: PatientTable, id: string, r: PatientRecord): PatientTable
  {
    PatientTable(if id in t.records then t.order else t.order + [id], t.records[id := r])
  }

  /** The table after visiting the given patients in order. */
  function LoadedTable(g: Groups, arrays: map<string, SegmentArray>, shuffles: map<string, seq<nat>>, ids: seq<string>): PatientTable
    requires ShufflesFit(g, arrays, shuffles) && forall id :: id in ids ==> id in g.slots
  {
    if |ids| == 0 then PatientTable([], map[])
    else
      var t := LoadedTable(g, arrays, shuffles, ids[..|ids| - 1]);
      match PatientEntry(g, arrays, shuffles, ids[|ids| - 1])
      case Some(r) => Store(t, ids[|ids| - 1], r)
      case None => t
  }

  /** The loading loop of `_load_data` over the grouped patients. */
  method LoadPatients(g: Groups, arrays: map<string, SegmentArray>, shuffles: map<string, seq<nat>>) returns (t: PatientTable)
    requires OrderMatches(g.order, g.slots) && ShufflesFit(g, arrays, shuffles)
    ensures t == LoadedTable(g, arrays, shuffles, g.order)
  {
    t := PatientTable([], map[]);
    var i := 0;
    while i < |g.order|
      invariant 0 <= i <= |g.order|
      invariant t == LoadedTable(g, arrays, shuffles, g.order[..i])
    {
      assert g.order[..i + 1][..i] == g.order[..i];
      var id := g.order[i];
      var s := g.slots[id];
      if s.ap.Some? && s.nap.Some? && s.ap.value in arrays && s.nap.value in arrays {
        var loaded := LoadPatient(arrays[s.ap.value], arrays[s.nap.value], shuffles[id]);
        if loaded.Ok? {
          t := Store(t, id, loaded.value);
        }
      }
      i := i + 1;
    }
    assert g.order[..i] == g.order;
  }

  /** The loaded patients are exactly the visited ones whose entry loads; the table's
      order lists them once each, and every record is well formed. */
  lemma {:induction false} LoadedTableMeaning(g: Groups, arrays: map<string, SegmentArray>, shuffles: map<string, seq<nat>>, ids: seq<string>)
    requires ShufflesFit(g, arrays, shuffles) && forall id :: id in ids ==> id in g.slots
    ensures var t := LoadedTable(g, arrays, shuffles, ids); OrderMatches(t.order, t.records)
    ensures forall id :: id in LoadedTable(g, arrays, shuffles, ids).records <==>
              id in ids && PatientEntry(g, arrays, shuffles, id).Some?
    ensures forall id :: id in LoadedTable(g, arrays, shuffles, ids).records ==>
              WellFormed(LoadedTable(g, arrays, shuffles, ids).records[id])
  {
    if |ids| > 0 {
      var init := ids[..|ids| - 1];
      var id := ids[|ids| - 1];
      assert forall x :: x in ids <==> x in init || x == id;
      LoadedTableMeaning(g, arrays, shuffles, init);
      var s := g.slots[id];
      if Loadable(s, arrays) {
        LoadPatientMeaning(arrays[s.ap.value], arrays[s.nap.value], shuffles[id]);
      }
    }
  }

  /** `get_patient_data`. */
  function GetPatientData(t: PatientTable, id: string): (r: Option<PatientRecord>)
    ensures r.Some? <==> id in t.records
    ensures r.Some? ==> r.value == t.records[id]
  {
    if id in t.records then Some(t.records[id]) else None
  }

  // ---------------------------------------------------------------- statistics

  datatype Detail = Detail(totalSegments: nat, apneaSegments: nat, normalSegments: nat, apneaRatio: real)

  datatype Statistics = Statistics(totalPatients: nat, totalSegments: nat, totalApneaSegments: nat,
                                   totalNormalSegments: nat, details: map<string, Detail>)

  /** A patient's line of the statistics; an empty patient has ratio 0. */
  function DetailOf(r: PatientRecord): Detail
  {
    Detail(|r.segments|, r.apCount, r.normalCount,
           if |r.segments| > 0 then r.apCount as real / |r.segments| as real else 0.0)
  }

  /** The running totals after the given patients. */
  function Totals(t: PatientTable, ids: seq<string>): Statistics
    requires forall id :: id in ids ==> id in t.records
  {
    if |ids| == 0 then Statistics(|t.records|, 0, 0, 0, map[])
    else
      var s := Totals(t, ids[..|ids| - 1]);
      var r := t.records[ids[|ids| - 1]];
      Statistics(s.totalPatients, s.totalSegments + |r.segments|, s.totalApneaSegments + r.apCount,
                 s.totalNormalSegments + r.normalCount, s.details[ids[|ids| - 1] := DetailOf(r)])
  }

  /** `get_patient_statistics`: all zeros for an empty dataset, otherwise the totals
      over the patients in order. */
  method GetPatientStatistics(t: PatientTable) returns (stats: Statistics)
    requires OrderMatches(t.order, t.records)
    ensures |t.records| == 0 ==> stats == Statistics(0, 0, 0, 0, map[])
    ensures |t.records| > 0 ==> stats == Totals(t, t.order)
  {
    if |t.records| == 0 {
      return Statistics(0, 0, 0, 0, map[]);
    }
    stats := Statistics(|t.records|, 0, 0, 0, map[]);
    var i := 0;
    while i < |t.order|
      invariant 0 <= i <= |t.order|
      invariant stats == Totals(t, t.order[..i])
    {
      assert t.order[..i + 1][..i] == t.order[..i];
      var id := t.order[i];
      var r := t.records[id];
      stats := Statistics(stats.totalPatients, stats.totalSegments + |r.segments|,
                          stats.totalApneaSegments + r.apCount, stats.totalNormalSegments + r.normalCount,
                          stats.details[id := DetailOf(r)]);
      i := i + 1;
    }
    assert t.order[..i] == t.order;
  }

  /** For well-formed records the segment total is the apnea total plus the normal
      total, every patient visited has its line, and each apnea ratio lies in [0, 1]. */
  lemma {:induction false} TotalsMeaning(t: PatientTable, ids: seq<string>)
    requires forall id :: id in ids ==> id in t.records && WellFormed(t.records[id])
    ensures var s := Totals(t, ids);
      s.totalSegments == s.totalApneaSegments + s.totalNormalSegments &&
      s.totalPatients == |t.records| &&
      (forall id :: id in s.details <==> id in ids) &&
      (forall id :: id in s.details ==>
         s.details[id] == DetailOf(t.records[id]) && 0.0 <= s.details[id].apneaRatio <= 1.0 &&
         s.details[id].totalSegments == s.details[id].apneaSegments + s.details[id].normalSegments)
  {
    if |ids| > 0 {
      var init := ids[..|ids| - 1];
      assert forall x :: x in ids <==> x in init || x == ids[|ids| - 1];
      TotalsMeaning(t, init);
      var r := t.records[ids[|ids| - 1]];
      if |r.segments| > 0 {
        RatioWithinUnit(r.apCount as real, |r.segments| as real);
      }
    }
  }

  // ---------------------------------------------------------------- environment data

  /** The (segment, label) pairs of the listed patients that are loaded, in order. */
  function EnvironmentPairs(t: PatientTable, ids: seq<string>): seq<(seq<real>, int)>
    requires forall id :: id in t.records ==> WellFormed(t.records[id])
  {
    if |ids| == 0 then []
    else
      var earlier := EnvironmentPairs(t, ids[..|ids| - 1]);
      var id := ids[|ids| - 1];
      if id in t.records then
        var r := t.records[id];
        earlier + seq(|r.segments|, k requires 0 <= k < |r.segments| => (r.segments[k], r.labels[k]))
      else earlier
  }

  /** `create_environment_data`: the pairs of the listed patients; unknown ids are
      skipped. */
  method CreateEnvironmentData(t: PatientTable, ids: seq<string>) returns (pairs: seq<(seq<real>, int)>)
    requires forall id :: id in t.records ==> WellFormed(t.records[id])
    ensures pairs == EnvironmentPairs(t, ids)
  {
    pairs := [];
    var i := 0;
    while i < |ids|
      invariant 0 <= i <= |ids|
      invariant pairs == EnvironmentPairs(t, ids[..i])
    {
      assert ids[..i + 1][..i] == ids[..i];
      var id := ids[i];
      if id in t.records {
        var r := t.records[id];
        var k := 0;
        while k < |r.segments|
          invariant 0 <= k <= |r.segments|
          invariant pairs == EnvironmentPairs(t, ids[..i]) +
                             seq(k, j requires 0 <= j < k => (r.segments[j], r.labels[j]))
        {
          pairs := pairs + [(r.segments[k], r.labels[k])];
          k := k + 1;
        }
      }
      i := i + 1;
    }
    assert ids[..i] == ids;
  }

  /** Every pair is a segment of a listed, loaded patient with its own label (0 or 1). */
  lemma {:induction false} EnvironmentPairsMeaning(t: PatientTable, ids: seq<string>)
    requires forall id :: id in t.records ==> WellFormed(t.records[id])
    ensures forall p :: p in EnvironmentPairs(t, ids) ==>
      (p.1 == 0 || p.1 == 1) &&
      exists id, k :: id in ids && id in t.records && 0 <= k < |t.records[id].segments| &&
                      p == (t.records[id].segments[k], t.records[id].labels[k])
  {
    if |ids| > 0 {
      var init := ids[..|ids| - 1];
      var id := ids[|ids| - 1];
      EnvironmentPairsMeaning(t, init);
      forall p | p in EnvironmentPairs(t, ids)
        ensures (p.1 == 0 || p.1 == 1) &&
          exists id, k :: id in ids && id in t.records && 0 <= k < |t.records[id].segments| &&
                          p == (t.records[id].segments[k], t.records[id].labels[k])
      {
        if p in EnvironmentPairs(t, init) {
          var x, k :| x in init && x in t.records && 0 <= k < |t.records[x].segments| &&
                      p == (t.records[x].segments[k], t.records[x].labels[k]);
          assert x in ids;
        } else {
          var r := t.records[id];
          var k :| 0 <= k < |r.segments| && p == (r.segments[k], r.labels[k]);
          assert id in ids;
        }
      }
    }
  }

  /** The number of segments of the listed patients that are loaded; an unknown id
      adds none, and a repeated id adds its segments again. */
  function SegmentTotal(t: PatientTable, ids: seq<string>): nat
  {
    if |ids| == 0 then 0
    else
      var id := ids[|ids| - 1];
      SegmentTotal(t, ids[..|ids| - 1]) + (if id in t.records then |t.records[id].segments| else 0)
  }

  /** There is exactly one pair per segment of every listed, loaded patient. */
  lemma {:induction false} EnvironmentPairsLength(t: PatientTable, ids: seq<string>)
    requires forall id :: id in t.records ==> WellFormed(t.records[id])
    ensures |EnvironmentPairs(t, ids)| == SegmentTotal(t, ids)
  {
    if |ids| > 0 {
      EnvironmentPairsLength(t, ids[..|ids| - 1]);
    }
  }

  /** When every listed patient is loaded with `n` segments, there are `|ids| * n`
      pairs. */
  lemma {:induction false} EnvironmentPairsCount(t: PatientTable, ids: seq<string>, n: nat)
    requires forall id :: id in t.records ==> WellFormed(t.records[id])
    requires forall id :: id in ids ==> id in t.records && |t.records[id].segments| == n
    ensures |EnvironmentPairs(t, ids)| == |ids| * n
  {
    if |ids| > 0 {
      EnvironmentPairsCount(t, ids[..|ids| - 1], n);
      assert ids[|ids| - 1] in ids;
      assert (|ids| - 1) * n + n == |ids| * n;
    }
  }

  // ---------------------------------------------------------------- sample lookup

  /** `get_sample_audio`: None for an unknown patient or an index at or past the end;
      a negative index counts from the end as in Python, and one before the start
      raises IndexError. */
  function GetSampleAudio(t: PatientTable, id: string, index: int): Result<Option<(seq<real>, int)>>
    requires forall p :: p in t.records ==> WellFormed(t.records[p])
  {
    if id !in t.records then Ok(None)
    else
      var r := t.records[id];
      assert WellFormed(r);
      if index >= |r.segments| then Ok(None)
      else if index >= 0 then Ok(Some((r.segments[index], r.labels[index])))
      else if -index <= |r.segments| then Ok(Some((r.segments[|r.segments| + index], r.labels[|r.segments| + index])))
      else Err(IndexError)
  }

  /** The lookup returns a segment with its label exactly for the indices Python
      accepts, and reports nothing for an unknown patient. */
  lemma GetSampleAudioMeaning(t: PatientTable, id: string, index: int)
    requires forall p :: p in t.records ==> WellFormed(t.records[p])
    ensures id !in t.records ==> GetSampleAudio(t, id, index) == Ok(None)
    ensures id in t.records ==>
      var r := t.records[id];
      var n := |r.segments|;
      (GetSampleAudio(t, id, index) == Ok(None) <==> index >= n) &&
      (GetSampleAudio(t, id, index).Err? <==> index < -n) &&
      (0 <= index < n ==> GetSampleAudio(t, id, index) == Ok(Some((r.segments[index], r.labels[index])))) &&
      (-n <= index < 0 ==> GetSampleAudio(t, id, index) == Ok(Some((r.segments[n + index], r.labels[n + index]))))
  {
  }

  // ---------------------------------------------------------------- audio preprocessing

  /** `AudioPreprocessor.segment_length`: `int(target_sr * segment_duration)`. */
  function SegmentLength(targetSr: int, segmentDuration: real): int
  {
    Trunc(targetSr as real * segmentDuration)
  }

  function Zeros(n: nat): (r: seq<real>)
    ensures |r| == n && forall i :: 0 <= i < n ==> r[i] == 0.0
  {
    seq(n, i => 0.0)
  }

  /** `preprocess_audio` at the target rate: zero-pad a short clip, cut a long one with
      `audio[:length]` (a negative length counts from the end). */
  function Preprocess(audio: seq<real>, length: int): seq<real>
  {
    if |audio| < length then audio + Zeros(length - |audio|)
    else if |audio| > length then
      (if length >= 0 then audio[..length] else if |audio| + length >= 0 then audio[..|audio| + length] else [])
    else audio
  }

  /** For a non-negative length the clip becomes exactly that long, keeping its start
      and padding with zeros. */
  lemma PreprocessMeaning(audio: seq<real>, length: int)
    ensures length >= 0 ==>
      |Preprocess(audio, length)| == length &&
      forall i :: 0 <= i < length ==> Preprocess(audio, length)[i] == if i < |audio| then audio[i] else 0.0
    ensures length < 0 ==>
      Preprocess(audio, length) == audio[..if |audio| + length >= 0 then |audio| + length else 0]
  {
  }

  /** Preprocessing is idempotent. */
  lemma PreprocessIdempotent(audio: seq<real>, length: nat)
    ensures Preprocess(Preprocess(audio, length), length) == Preprocess(audio, length)
  {
    PreprocessMeaning(audio, length);
  }

  /** The full-length chunks of a clip, from its start. */
  function FullChunks(audio: seq<real>, length: nat): seq<seq<real>>
    requires length > 0
    decreases |audio|
  {
    if |audio| < length then [] else [audio[..length]] + FullChunks(audio[length..], length)
  }

  /** `segment_audio` at the target rate: the clip is preprocessed and cut into chunks
      of the segment length, of which only full ones are kept.  A zero length divides
      by zero, and a negative one walks an empty range. */
  method SegmentAudio(audio: seq<real>, length: int) returns (r: Result<seq<seq<real>>>)
    ensures length == 0 ==> r == Err(ZeroDivisionError)
    ensures length < 0 ==> r == Ok([])
    ensures length > 0 ==> r == Ok(FullChunks(Preprocess(audio, length), length))
    ensures length > 0 ==> r == Ok([Preprocess(audio, length)])
  {
    if length == 0 {
      return Err(ZeroDivisionError);
    }
    if length < 0 {
      return Ok([]);
    }
    var clip := Preprocess(audio, length);
    var segments: seq<seq<real>> := [];
    var i := 0;
    while i < |clip|
      invariant 0 <= i
      invariant segments + FullChunks(clip[if i < |clip| then i else |clip|..], length) == FullChunks(clip, length)
      decreases |clip| - i
    {
      FullChunksStep(clip, i, length);
      var segment := clip[i..if i + length <= |clip| then i + length else |clip|];
      if |segment| == length {
        segments := segments + [segment];
      }
      i := i + length;
    }
    assert i >= |clip|;
    assert FullChunks(clip[|clip|..], length) == [];
    assert segments == FullChunks(clip, length);
    r := Ok(segments);
    SegmentOfPreprocessed(audio, length);
  }

  /** One step of the chunking loop: the chunk at `i` is kept exactly when it is
      full-length. */
  lemma FullChunksStep(clip: seq<real>, i: nat, length: nat)
    requires length > 0 && i < |clip|
    ensures i + length <= |clip| ==>
      FullChunks(clip[i..], length) == [clip[i..i + length]] + FullChunks(clip[i + length..], length)
    ensures i + length > |clip| ==> FullChunks(clip[i..], length) == []
  {
    if i + length <= |clip| {
      assert clip[i..][..length] == clip[i..i + length];
      assert clip[i..][length..] == clip[i + length..];
    }
  }

  /** Every chunk is full-length, and together they spell the start of the clip, leaving
      less than one segment over. */
  lemma {:induction false} FullChunksMeaning(audio: seq<real>, length: nat)
    requires length > 0
    ensures forall c :: c in FullChunks(audio, length) ==> |c| == length
    ensures var joined := Concat(FullChunks(audio, length));
      |joined| <= |audio| && joined == audio[..|joined|] && |audio| - |joined| < length
    decreases |audio|
  {
    if |audio| >= length {
      var rest := audio[length..];
      FullChunksMeaning(rest, length);
      var tail := Concat(FullChunks(rest, length));
      assert Concat(FullChunks(audio, length)) == audio[..length] + tail;
      assert audio[..length] + tail == audio[..length + |tail|] by {
        assert audio[..length + |tail|] == audio[..length] + audio[length..length + |tail|];
        assert rest[..|tail|] == audio[length..length + |tail|];
      }
    }
  }

  function Concat(chunks: seq<seq<real>>): seq<real>
  {
    if |chunks| == 0 then [] else chunks[0] + Concat(chunks[1..])
  }

  /** A preprocessed clip is exactly one segment. */
  lemma SegmentOfPreprocessed(audio: seq<real>, length: nat)
    requires length > 0
    ensures FullChunks(Preprocess(audio, length), length) == [Preprocess(audio, length)]
  {
    PreprocessMeaning(audio, length);
    var clip := Preprocess(audio, length);
    assert clip[..length] == clip;
    assert |clip[length..]| == 0;
  }
}
