/**
 * Signal containers and the loader that reads a waveform out of one
 * (`load_waveform` and `measure_frame_len` in chunk_dataset_mat.py).
 *
 * The two decoders are foreign code (scipy's `loadmat` for the legacy MAT
 * layouts, h5py for the hierarchical v7.3 layout). A file's bytes are
 * represented here by which of the two can read them and what each returns:
 * an ordered list of named values.
 */
module Container {
  import opened Wrappers

  /** One signal sample. Segmentation moves samples and never looks at them. */
  type Sample(==)

  /** A value as the decoders hand it over. */
  datatype Value =
    | NdArray(shape: seq<nat>, data: seq<Sample>)  // `data` in row-major order: what `flatten()` returns
    | NonArray(pyType: string)                     // bytes, str, list, ...: anything that is not an ndarray

  /** A decoded container: (name, value) pairs in the container's own order. */
  type Entries = seq<(string, Value)>

  /** The content of a file. */
  datatype Blob =
    | LegacyMat(variables: Entries)      // MAT v4/v5/v7: loadmat reads it, h5py cannot
    | HierarchicalMat(datasets: Entries) // MAT v7.3 (HDF5): loadmat raises, h5py reads the top-level datasets
    | Opaque(bytes: seq<bv8>)            // anything else, a sidecar for one: neither decoder reads it

  /** What the loader raises once both decoders have been tried. */
  datatype LoadError =
    | Unreadable    // h5py cannot open the file either
    | NoTopLevelKey // `next(iter(f.keys()))` on an empty file raises StopIteration
    | NotAnArray    // the first top-level entry is not a dataset

  /** The three entries loadmat puts in front of a file's variables. */
  const LoadmatHeader: Entries := [
    ("__header__", NonArray("bytes")),
    ("__version__", NonArray("str")),
    ("__globals__", NonArray("list"))
  ]

  /** `scipy.io.loadmat`: None when it raises. */
  function LegacyDecode(b: Blob): Option<Entries> {
    match b
    case LegacyMat(vars) => Some(LoadmatHeader + vars)
    case _ => None
  }

  /** `h5py.File(...)` read in full: None when it raises. */
  function HierarchicalDecode(b: Blob): Option<Entries> {
    match b
    case HierarchicalMat(ds) => Some(ds)
    case _ => None
  }

  /** `scipy.io.savemat(path, vars)`: a legacy container holding `vars`. */
  function SaveMat(vars: Entries): (b: Blob)
    ensures LegacyDecode(b) == Some(LoadmatHeader + vars)
    ensures HierarchicalDecode(b) == None
  {
    LegacyMat(vars)
  }

  /** `seg.reshape(-1, 1)`: the samples as one column. */
  function Column(seg: seq<Sample>): (v: Value)
    ensures v.NdArray? && v.shape == [|seg|, 1] && v.data == seg
  {
    NdArray([|seg|, 1], seg)
  }

  /** No two entries share a name, as in the dict a decoder returns. */
  predicate UniqueKeys(es: Entries) {
    forall i, j :: 0 <= i < j < |es| ==> es[i].0 != es[j].0
  }

  /** `key in d` and `d[key]`: the value of the first entry named `key`. */
  function Lookup(es: Entries, key: string): (r: Option<Value>)
    ensures r.None? <==> forall k :: 0 <= k < |es| ==> es[k].0 != key
    ensures r.Some? ==> exists k :: 0 <= k < |es| && es[k] == (key, r.value) &&
                                    forall j :: 0 <= j < k ==> es[j].0 != key
  {
    if es == [] then None
    else if es[0].0 == key then Some(es[0].1)
    else
      var r := Lookup(es[1..], key);
      assert r.Some? ==> exists k :: 0 <= k < |es[1..]| && es[1..][k] == (key, r.value) &&
                                     forall j :: 0 <= j < k ==> es[1..][j].0 != key;
      r
  }

  /** `next(v for v in d.values() if isinstance(v, np.ndarray))`; None for StopIteration. */
  function FirstArray(es: Entries): (r: Option<Value>)
    ensures r.None? <==> forall k :: 0 <= k < |es| ==> !es[k].1.NdArray?
    ensures r.Some? ==> r.value.NdArray? &&
                        exists k :: 0 <= k < |es| && es[k].1 == r.value &&
                                    forall j :: 0 <= j < k ==> !es[j].1.NdArray?
  {
    if es == [] then None
    else if es[0].1.NdArray? then Some(es[0].1)
    else
      var r := FirstArray(es[1..]);
      assert r.Some? ==> exists k :: 0 <= k < |es[1..]| && es[1..][k].1 == r.value &&
                                     forall j :: 0 <= j < k ==> !es[1..][j].1.NdArray?;
      r
  }

  /** `arr.flatten()`: None when `arr` is not an array (AttributeError). */
  function Flatten(v: Value): Option<seq<Sample>> {
    match v
    case NdArray(_, data) => Some(data)
    case NonArray(_) => None
  }

  /** The `try` block of `load_waveform`; None when anything in it raises. */
  function LegacyLoad(b: Blob): Option<seq<Sample>> {
    match LegacyDecode(b)
    case None => None
    case Some(es) =>
      match Lookup(es, "waveform")
      case Some(v) => Flatten(v)
      case None =>
        match FirstArray(es)
        case Some(v) => Flatten(v)
        case None => None
  }

  /** The `except` block of `load_waveform`: the first top-level key, flattened. */
  function HierarchicalLoad(b: Blob): Result<seq<Sample>, LoadError> {
    match HierarchicalDecode(b)
    case None => Err(Unreadable)
    case Some(ds) =>
      if |ds| == 0 then Err(NoTopLevelKey)
      else
        match Flatten(ds[0].1)
        case Some(w) => Ok(w)
        case None => Err(NotAnArray)
  }

  /** The entries that either decoder can see in `b`. */
  function Stored(b: Blob): Entries {
    match b
    case LegacyMat(vars) => vars
    case HierarchicalMat(ds) => ds
    case Opaque(_) => []
  }

  /** `load_waveform`: the legacy decoder first, the hierarchical one on any exception. */
  function LoadWaveform(b: Blob): (r: Result<seq<Sample>, LoadError>)
    ensures r.Ok? ==> exists k :: 0 <= k < |Stored(b)| && Stored(b)[k].1.NdArray? &&
                                  Stored(b)[k].1.data == r.value
    ensures b.Opaque? ==> r == Err(Unreadable)
  {
    match LegacyLoad(b)
    case Some(w) =>
      LegacyLoadReadsStoredArray(b);
      Ok(w)
    case None =>
      var r := HierarchicalLoad(b);
      assert r.Ok? ==> b.HierarchicalMat? && Stored(b)[0].1.NdArray? && Stored(b)[0].1.data == r.value;
      r
  }

  lemma LegacyLoadReadsStoredArray(b: Blob)
    requires LegacyLoad(b).Some?
    ensures exists k :: 0 <= k < |Stored(b)| && Stored(b)[k].1.NdArray? &&
                        Stored(b)[k].1.data == LegacyLoad(b).value
  {
    var es := LoadmatHeader + b.variables;
    var h := |LoadmatHeader|;
    var v := if Lookup(es, "waveform").Some? then Lookup(es, "waveform").value else FirstArray(es).value;
    assert v.NdArray? && v.data == LegacyLoad(b).value;
    var j :| 0 <= j < |es| && es[j].1 == v;
    assert j >= h;
    assert Stored(b)[j - h] == es[j];
  }

  /** `measure_frame_len`: the sample count of the reference waveform. */
  function MeasureFrameLen(b: Blob): (r: Result<nat, LoadError>)
    ensures r.Ok? <==> LoadWaveform(b).Ok?
    ensures r.Ok? ==> r.value == |LoadWaveform(b).value|
    ensures r.Err? ==> r.error == LoadWaveform(b).error
  {
    match LoadWaveform(b)
    case Ok(w) => Ok(|w|)
    case Err(e) => Err(e)
  }

  /** A legacy container with an array named "waveform" yields that array. */
  lemma LoadPrefersWaveformKey(vars: Entries, k: nat, shape: seq<nat>, data: seq<Sample>)
    requires UniqueKeys(vars)
    requires k < |vars| && vars[k] == ("waveform", NdArray(shape, data))
    ensures LoadWaveform(LegacyMat(vars)) == Ok(data)
  {
    var es := LoadmatHeader + vars;
    var h := |LoadmatHeader|;
    assert es[h + k] == vars[k];
    var r := Lookup(es, "waveform");
    assert r.Some?;
    var j :| 0 <= j < |es| && es[j] == ("waveform", r.value) &&
             forall i :: 0 <= i < j ==> es[i].0 != "waveform";
    assert j >= h;
    assert es[j] == vars[j - h];
    assert j - h == k;
  }

  /** Without a "waveform" entry, the first array in container order is taken. */
  lemma LoadFirstArray(vars: Entries, k: nat, shape: seq<nat>, data: seq<Sample>)
    requires forall i :: 0 <= i < |vars| ==> vars[i].0 != "waveform"
    requires k < |vars| && vars[k].1 == NdArray(shape, data)
    requires forall i :: 0 <= i < k ==> !vars[i].1.NdArray?
    ensures LoadWaveform(LegacyMat(vars)) == Ok(data)
  {
    var es := LoadmatHeader + vars;
    var h := |LoadmatHeader|;
    assert forall i :: 0 <= i < |es| ==> es[i].0 != "waveform" by {
      forall i | 0 <= i < |es|
        ensures es[i].0 != "waveform"
      {
        if i >= h {
          assert es[i] == vars[i - h];
        }
      }
    }
    assert es[h + k] == vars[k];
    var r := FirstArray(es);
    assert r.Some?;
    var j :| 0 <= j < |es| && es[j].1 == r.value && forall i :: 0 <= i < j ==> !es[i].1.NdArray?;
    assert j >= h;
    assert es[j] == vars[j - h];
    assert j - h == k;
  }

  /**
   * A legacy container with no array at all makes the `try` block raise; the
   * fallback decoder cannot open a legacy file, so the load fails.
   */
  lemma LoadNoArrayFails(vars: Entries)
    requires forall i :: 0 <= i < |vars| ==> !vars[i].1.NdArray?
    ensures LoadWaveform(LegacyMat(vars)) == Err(Unreadable)
  {
    var es := LoadmatHeader + vars;
    var h := |LoadmatHeader|;
    assert forall i :: 0 <= i < |es| ==> !es[i].1.NdArray? by {
      forall i | 0 <= i < |es|
        ensures !es[i].1.NdArray?
      {
        if i >= h {
          assert es[i] == vars[i - h];
        }
      }
    }
    assert FirstArray(es).None?;
    var r := Lookup(es, "waveform");
    if r.Some? {
      var j :| 0 <= j < |es| && es[j] == ("waveform", r.value) &&
               forall i :: 0 <= i < j ==> es[i].0 != "waveform";
      assert !r.value.NdArray?;
    }
  }

  /** A v7.3 container yields its first top-level dataset, flattened. */
  lemma LoadHierarchicalFirstKey(ds: Entries, shape: seq<nat>, data: seq<Sample>)
    requires |ds| > 0 && ds[0].1 == NdArray(shape, data)
    ensures LoadWaveform(HierarchicalMat(ds)) == Ok(data)
  {
  }

  /** A segment written by `savemat` under "waveform" reads back as exactly that segment. */
  lemma {:induction false} SavedSegmentRoundTrip(seg: seq<Sample>)
    ensures LoadWaveform(SaveMat([("waveform", Column(seg))])) == Ok(seg)
    ensures MeasureFrameLen(SaveMat([("waveform", Column(seg))])) == Ok(|seg|)
  {
    LoadPrefersWaveformKey([("waveform", Column(seg))], 0, [|seg|, 1], seg);
  }
}
