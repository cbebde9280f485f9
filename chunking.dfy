/**
 * `chunk_file_to_frames`: load one signal file, cut it into frames of the
 * reference length and write, per frame, a container holding only that
 * frame (as a column, under "waveform") and a copy of the file's sidecar.
 */
module Chunking {
  import opened Wrappers
  import opened Container
  import opened Paths
  import opened Segmentation
  import opened OutputTree

  /** An exception that escapes `chunk_file_to_frames` or `main`. */
  datatype Failure =
    | LoadFailed(loadError: LoadError) // raised by `load_waveform`
    | ZeroDivision                 // `len(wf) // frame_len` with a zero frame length
    | BadPath(pathError: PathError)  // raised while computing the output root

  /** `out_dir / f"{stem}_frame{i:04d}{ext}"`. */
  function FramePath(outDir: Path, stem: string, i: nat, ext: string): Path {
    outDir + [FrameName(stem, i) + ext]
  }

  /** The container `savemat` writes for one frame: the frame as a column under "waveform". */
  function FrameContainer(seg: seq<Sample>): Blob {
    SaveMat([("waveform", Column(seg))])
  }

  /** The two writes of loop iteration `i`: the frame's container, then the sidecar copy. */
  function WriteFrame(st: FsState, outDir: Path, stem: string, seg: seq<Sample>, metaExt: string, meta: Blob,
                      i: nat): FsState
  {
    st.Write(FramePath(outDir, stem, i, ".mat"), FrameContainer(seg))
      .Write(FramePath(outDir, stem, i, metaExt), meta)
  }

  /** The state after the frame loop has written `frames`, frame `i` under index `i`. */
  function WriteFrames(st: FsState, outDir: Path, stem: string, frames: seq<seq<Sample>>,
                       metaExt: string, meta: Blob): FsState
    decreases |frames|
  {
    if frames == [] then st
    else
      var k := |frames| - 1;
      WriteFrame(WriteFrames(st, outDir, stem, frames[..k], metaExt, meta), outDir, stem, frames[k], metaExt, meta, k)
  }

  /** One more loop iteration writes the next frame. */
  lemma WriteFramesStep(st: FsState, outDir: Path, stem: string, frames: seq<seq<Sample>>,
                        metaExt: string, meta: Blob, i: nat)
    requires i < |frames|
    ensures WriteFrames(st, outDir, stem, frames[..i + 1], metaExt, meta) ==
            WriteFrame(WriteFrames(st, outDir, stem, frames[..i], metaExt, meta), outDir, stem, frames[i], metaExt, meta, i)
  {
    assert frames[..i + 1][..i] == frames[..i];
  }

  /**
   * Everything `chunk_file_to_frames` does, or the exception it raises
   * (before any write): the loader's error, or the division by a zero frame length.
   */
  function ChunkFile(st: FsState, matName: string, mat: Blob, metaName: string, meta: Blob,
                     outDir: Path, frameLen: nat): (r: Result<FsState, Failure>)
    ensures r.Ok? <==> LoadWaveform(mat).Ok? && frameLen > 0
    ensures LoadWaveform(mat).Err? ==> r == Err(LoadFailed(LoadWaveform(mat).error))
    ensures LoadWaveform(mat).Ok? && frameLen == 0 ==> r == Err(ZeroDivision)
  {
    match LoadWaveform(mat)
    case Err(e) => Err(LoadFailed(e))
    case Ok(wf) =>
      if frameLen == 0 then Err(ZeroDivision)
      else
        var stem := Stem(matName);
        Ok(WriteFrames(st, outDir, stem, Frames(wf, frameLen), Suffix(metaName), meta)
             .Print(Chunked(stem, FrameCount(|wf|, frameLen), frameLen)))
  }

  /** The paths the first `n` iterations write to. */
  function FramePaths(outDir: Path, stem: string, metaExt: string, n: nat): set<Path> {
    (set i | 0 <= i < n :: FramePath(outDir, stem, i, ".mat")) +
    (set i | 0 <= i < n :: FramePath(outDir, stem, i, metaExt))
  }

  /** Every frame path names an entry of `outDir` itself. */
  lemma FramePathsInside(outDir: Path, stem: string, metaExt: string, n: nat)
    ensures forall q :: q in FramePaths(outDir, stem, metaExt, n) ==> |q| == |outDir| + 1 && q[..|outDir|] == outDir
  {
    forall i: nat, e: string
      ensures |FramePath(outDir, stem, i, e)| == |outDir| + 1
      ensures FramePath(outDir, stem, i, e)[..|outDir|] == outDir
    {
    }
  }

  lemma FramePathInjective(outDir: Path, stem: string, i1: nat, e1: string, i2: nat, e2: string)
    requires OutputExt(e1) && OutputExt(e2)
    requires FramePath(outDir, stem, i1, e1) == FramePath(outDir, stem, i2, e2)
    ensures i1 == i2 && e1 == e2
  {
    var p := FramePath(outDir, stem, i1, e1);
    assert p[|outDir|] == FrameName(stem, i1) + e1 == FrameName(stem, i2) + e2;
    FrameFileNamesDistinct(stem, i1, e1, stem, i2, e2);
  }

  /** Writing `frames` touches neither directories nor the console. */
  lemma {:induction false} WriteFramesOnlyFiles(st: FsState, outDir: Path, stem: string, frames: seq<seq<Sample>>,
                                                metaExt: string, meta: Blob)
    ensures var st' := WriteFrames(st, outDir, stem, frames, metaExt, meta);
            st'.dirs == st.dirs && st'.console == st.console
    decreases |frames|
  {
    if frames != [] {
      WriteFramesOnlyFiles(st, outDir, stem, frames[..|frames| - 1], metaExt, meta);
    }
  }

  /** Writing `frames` adds exactly the paths of frames `0 .. |frames|-1`. */
  lemma {:induction false} WriteFramesPaths(st: FsState, outDir: Path, stem: string, frames: seq<seq<Sample>>,
                                            metaExt: string, meta: Blob)
    ensures WriteFrames(st, outDir, stem, frames, metaExt, meta).files.Keys
            == st.files.Keys + FramePaths(outDir, stem, metaExt, |frames|)
    decreases |frames|
  {
    if frames != [] {
      var k := |frames| - 1;
      var prev := WriteFrames(st, outDir, stem, frames[..k], metaExt, meta);
      WriteFramesPaths(st, outDir, stem, frames[..k], metaExt, meta);
      var pm, px := FramePath(outDir, stem, k, ".mat"), FramePath(outDir, stem, k, metaExt);
      WriteFramesLast(st, outDir, stem, frames, metaExt, meta);
      KeysAfterTwoUpdates(prev.files, pm, FrameContainer(frames[k]), px, meta);
      FramePathsGrow(outDir, stem, metaExt, k);
      UnionAssoc(st.files.Keys, FramePaths(outDir, stem, metaExt, k), {pm, px});
    }
  }

  lemma FramePathsGrow(outDir: Path, stem: string, metaExt: string, k: nat)
    ensures FramePaths(outDir, stem, metaExt, k + 1)
            == FramePaths(outDir, stem, metaExt, k) + {FramePath(outDir, stem, k, ".mat"), FramePath(outDir, stem, k, metaExt)}
  {
  }

  /** The last iteration's two writes, as map updates. */
  lemma WriteFramesLast(st: FsState, outDir: Path, stem: string, frames: seq<seq<Sample>>, metaExt: string, meta: Blob)
    requires frames != []
    ensures var k := |frames| - 1;
            WriteFrames(st, outDir, stem, frames, metaExt, meta).files
            == WriteFrames(st, outDir, stem, frames[..k], metaExt, meta).files
                 [FramePath(outDir, stem, k, ".mat") := FrameContainer(frames[k])]
                 [FramePath(outDir, stem, k, metaExt) := meta]
  {
  }

  lemma UnionAssoc<T>(a: set<T>, b: set<T>, c: set<T>)
    ensures (a + b) + c == a + (b + c)
  {
  }

  lemma KeysAfterTwoUpdates<K, V>(m: map<K, V>, a: K, va: V, b: K, vb: V)
    ensures m[a := va][b := vb].Keys == m.Keys + {a, b}
  {
  }

  /** Iteration `k` does not overwrite what iterations `0 .. k-1` wrote. */
  lemma LaterFramesElsewhere(outDir: Path, stem: string, metaExt: string, i: nat, k: nat)
    requires metaExt == ".yaml" || metaExt == ".yml"
    requires i < k
    ensures FramePath(outDir, stem, i, ".mat") != FramePath(outDir, stem, k, ".mat")
    ensures FramePath(outDir, stem, i, ".mat") != FramePath(outDir, stem, k, metaExt)
    ensures FramePath(outDir, stem, i, metaExt) != FramePath(outDir, stem, k, ".mat")
    ensures FramePath(outDir, stem, i, metaExt) != FramePath(outDir, stem, k, metaExt)
  {
    if FramePath(outDir, stem, i, ".mat") == FramePath(outDir, stem, k, ".mat") {
      FramePathInjective(outDir, stem, i, ".mat", k, ".mat");
    }
    if FramePath(outDir, stem, i, ".mat") == FramePath(outDir, stem, k, metaExt) {
      FramePathInjective(outDir, stem, i, ".mat", k, metaExt);
    }
    if FramePath(outDir, stem, i, metaExt) == FramePath(outDir, stem, k, ".mat") {
      FramePathInjective(outDir, stem, i, metaExt, k, ".mat");
    }
    if FramePath(outDir, stem, i, metaExt) == FramePath(outDir, stem, k, metaExt) {
      FramePathInjective(outDir, stem, i, metaExt, k, metaExt);
    }
  }

  /**
   * After `frames` are written, frame `i`'s container holds `frames[i]` and
   * its sidecar copy is the source sidecar: no later iteration overwrites
   * them.
   */
  lemma {:induction false} WrittenFrameKept(st: FsState, outDir: Path, stem: string, frames: seq<seq<Sample>>,
                                            metaExt: string, meta: Blob, i: nat)
    requires metaExt == ".yaml" || metaExt == ".yml"
    requires i < |frames|
    ensures var st' := WriteFrames(st, outDir, stem, frames, metaExt, meta);
            && FramePath(outDir, stem, i, ".mat") in st'.files
            && st'.files[FramePath(outDir, stem, i, ".mat")] == FrameContainer(frames[i])
            && FramePath(outDir, stem, i, metaExt) in st'.files
            && st'.files[FramePath(outDir, stem, i, metaExt)] == meta
    decreases |frames|
  {
    var k := |frames| - 1;
    var prefix := frames[..k];
    var before := WriteFrames(st, outDir, stem, prefix, metaExt, meta);
    var pm, px := FramePath(outDir, stem, k, ".mat"), FramePath(outDir, stem, k, metaExt);
    assert WriteFrames(st, outDir, stem, frames, metaExt, meta).files == before.files[pm := FrameContainer(frames[k])][px := meta];
    var after := before.files[pm := FrameContainer(frames[k])][px := meta];
    var qm, qx := FramePath(outDir, stem, i, ".mat"), FramePath(outDir, stem, i, metaExt);
    if i < k {
      WrittenFrameKept(st, outDir, stem, prefix, metaExt, meta, i);
      LaterFramesElsewhere(outDir, stem, metaExt, i, k);
      assert prefix[i] == frames[i];
      TwoUpdatesElsewhere(before.files, pm, FrameContainer(frames[k]), px, meta, qm);
      TwoUpdatesElsewhere(before.files, pm, FrameContainer(frames[k]), px, meta, qx);
    } else {
      assert i == k;
      ExtensionsApart(outDir, stem, k, metaExt);
      FirstUpdateKept(before.files, pm, FrameContainer(frames[k]), px, meta);
      assert qm == pm && qx == px;
    }
    assert qm in after && after[qm] == FrameContainer(frames[i]);
    assert qx in after && after[qx] == meta;
  }

  lemma FirstUpdateKept<K, V>(m: map<K, V>, a: K, va: V, b: K, vb: V)
    requires a != b
    ensures a in m[a := va][b := vb] && m[a := va][b := vb][a] == va
  {
  }

  lemma TwoUpdatesElsewhere<K, V>(m: map<K, V>, a: K, va: V, b: K, vb: V, q: K)
    requires q != a && q != b && q in m
    ensures q in m[a := va][b := vb] && m[a := va][b := vb][q] == m[q]
  {
  }

  /** A frame's container and its sidecar copy have different paths. */
  lemma ExtensionsApart(outDir: Path, stem: string, i: nat, metaExt: string)
    requires metaExt == ".yaml" || metaExt == ".yml"
    ensures FramePath(outDir, stem, i, ".mat") != FramePath(outDir, stem, i, metaExt)
  {
    if FramePath(outDir, stem, i, ".mat") == FramePath(outDir, stem, i, metaExt) {
      FramePathInjective(outDir, stem, i, ".mat", i, metaExt);
    }
  }

  /** Writing `frames` leaves every file outside the frame paths as it was. */
  lemma {:induction false} OtherFilesKept(st: FsState, outDir: Path, stem: string, frames: seq<seq<Sample>>,
                                          metaExt: string, meta: Blob, p: Path)
    requires p in st.files && p !in FramePaths(outDir, stem, metaExt, |frames|)
    ensures var st' := WriteFrames(st, outDir, stem, frames, metaExt, meta);
            p in st'.files && st'.files[p] == st.files[p]
    decreases |frames|
  {
    if frames != [] {
      var k := |frames| - 1;
      assert FramePath(outDir, stem, k, ".mat") in FramePaths(outDir, stem, metaExt, |frames|);
      assert FramePath(outDir, stem, k, metaExt) in FramePaths(outDir, stem, metaExt, |frames|);
      assert FramePaths(outDir, stem, metaExt, k) <= FramePaths(outDir, stem, metaExt, |frames|);
      OtherFilesKept(st, outDir, stem, frames[..k], metaExt, meta, p);
    }
  }

  /**
   * When a file is chunked: its waveform loaded, the frame length was
   * positive, `len / frameLen` frames were written as two files each, one
   * progress line was printed and nothing else changed.
   */
  lemma ChunkFileEffect(st: FsState, matName: string, mat: Blob, metaName: string, meta: Blob,
                        outDir: Path, frameLen: nat, st': FsState)
    requires Suffix(metaName) == ".yaml" || Suffix(metaName) == ".yml"
    requires ChunkFile(st, matName, mat, metaName, meta, outDir, frameLen) == Ok(st')
    ensures LoadWaveform(mat).Ok? && frameLen > 0
    ensures var wf := LoadWaveform(mat).value;
            var n := FrameCount(|wf|, frameLen);
            var stem := Stem(matName);
            var ext := Suffix(metaName);
            && st'.dirs == st.dirs
            && st'.console == st.console + [Chunked(stem, n, frameLen)]
            && st'.files.Keys == st.files.Keys + FramePaths(outDir, stem, ext, n)
            && (forall p :: p in st.files && p !in FramePaths(outDir, stem, ext, n) ==> st'.files[p] == st.files[p])
            && (forall i :: 0 <= i < n ==>
                  && i * frameLen + frameLen <= |wf|
                  && st'.files[FramePath(outDir, stem, i, ".mat")] == FrameContainer(Frame(wf, frameLen, i))
                  && st'.files[FramePath(outDir, stem, i, ext)] == meta)
  {
    var wf := LoadWaveform(mat).value;
    var frames := Frames(wf, frameLen);
    var stem, ext := Stem(matName), Suffix(metaName);
    WriteFramesOnlyFiles(st, outDir, stem, frames, ext, meta);
    WriteFramesPaths(st, outDir, stem, frames, ext, meta);
    var written := WriteFrames(st, outDir, stem, frames, ext, meta);
    forall p | p in st.files && p !in FramePaths(outDir, stem, ext, |frames|)
      ensures p in written.files && written.files[p] == st.files[p]
    {
      OtherFilesKept(st, outDir, stem, frames, ext, meta, p);
    }
    forall i | 0 <= i < |frames|
      ensures FramePath(outDir, stem, i, ".mat") in written.files
      ensures written.files[FramePath(outDir, stem, i, ".mat")] == FrameContainer(frames[i])
      ensures FramePath(outDir, stem, i, ext) in written.files
      ensures written.files[FramePath(outDir, stem, i, ext)] == meta
    {
      WrittenFrameKept(st, outDir, stem, frames, ext, meta, i);
    }
  }

  /** Every frame container written reads back, through the loader, as its frame of exactly `frameLen` samples. */
  lemma WrittenFrameReloads(wf: seq<Sample>, frameLen: nat, i: nat)
    requires frameLen > 0 && i * frameLen + frameLen <= |wf|
    ensures LoadWaveform(FrameContainer(Frame(wf, frameLen, i))) == Ok(Frame(wf, frameLen, i))
    ensures MeasureFrameLen(FrameContainer(Frame(wf, frameLen, i))) == Ok(frameLen)
  {
    SavedSegmentRoundTrip(Frame(wf, frameLen, i));
  }

  /** Once the waveform is loaded and the frame length is positive, chunking writes every frame and prints one line. */
  lemma ChunkFileWrites(st: FsState, matName: string, mat: Blob, metaName: string, meta: Blob,
                        outDir: Path, frameLen: nat, wf: seq<Sample>)
    requires LoadWaveform(mat) == Ok(wf) && frameLen > 0
    ensures ChunkFile(st, matName, mat, metaName, meta, outDir, frameLen) ==
            Ok(WriteFrames(st, outDir, Stem(matName), Frames(wf, frameLen), Suffix(metaName), meta)
                 .Print(Chunked(Stem(matName), |wf| / frameLen, frameLen)))
  {
  }

  /** One iteration of the frame loop: slice frame `i`, `savemat` it, then `shutil.copy` the sidecar. */
  method SaveFrame(fs: FileSystem, outDir: Path, stem: string, wf: seq<Sample>, frameLen: nat, i: nat,
                   metaExt: string, meta: Blob)
    requires fs.Valid() && outDir in fs.dirs
    requires frameLen > 0 && i < FrameCount(|wf|, frameLen)
    modifies fs
    ensures fs.Valid() && outDir in fs.dirs
    ensures fs.State() == WriteFrame(old(fs.State()), outDir, stem, Frames(wf, frameLen)[i], metaExt, meta, i)
  {
    var start := i * frameLen;
    FrameSlice(wf, frameLen, i);
    var seg := wf[start .. start + frameLen];
    assert seg == Frames(wf, frameLen)[i];
    var base := FrameName(stem, i);
    ParentOfChild(outDir, base + ".mat");
    ParentOfChild(outDir, base + metaExt);
    fs.Save(outDir + [base + ".mat"], FrameContainer(seg));
    fs.Save(outDir + [base + metaExt], meta);
  }

  /** The frame loop of `chunk_file_to_frames`: writes all `len / frameLen` frames and returns their number. */
  method WriteAllFrames(fs: FileSystem, outDir: Path, stem: string, wf: seq<Sample>, frameLen: nat,
                        metaExt: string, meta: Blob) returns (nFrames: nat)
    requires fs.Valid() && outDir in fs.dirs && frameLen > 0
    modifies fs
    ensures fs.Valid() && outDir in fs.dirs
    ensures nFrames == FrameCount(|wf|, frameLen)
    ensures fs.State() == WriteFrames(old(fs.State()), outDir, stem, Frames(wf, frameLen), metaExt, meta)
  {
    nFrames := |wf| / frameLen;
    ghost var frames := Frames(wf, frameLen);
    ghost var st0 := fs.State();
    for i := 0 to nFrames
      invariant fs.Valid() && outDir in fs.dirs
      invariant fs.State() == WriteFrames(st0, outDir, stem, frames[..i], metaExt, meta)
    {
      SaveFrame(fs, outDir, stem, wf, frameLen, i, metaExt, meta);
      WriteFramesStep(st0, outDir, stem, frames, metaExt, meta, i);
    }
    assert frames[..nFrames] == frames;
  }

  /**
   * `chunk_file_to_frames(mat_path, meta_path, out_dir, frame_len)`. Returns
   * the number of frames written, or the exception raised; the output
   * directory must exist, as `main` creates it before the call.
   */
  method ChunkFileToFrames(fs: FileSystem, matName: string, mat: Blob, metaName: string, meta: Blob,
                           outDir: Path, frameLen: nat) returns (r: Result<nat, Failure>)
    requires fs.Valid() && outDir in fs.dirs
    modifies fs
    ensures fs.Valid() && outDir in fs.dirs
    ensures r.Err? ==> fs.State() == old(fs.State()) &&
                       ChunkFile(old(fs.State()), matName, mat, metaName, meta, outDir, frameLen) == Err(r.error)
    ensures r.Ok? ==> ChunkFile(old(fs.State()), matName, mat, metaName, meta, outDir, frameLen) == Ok(fs.State()) &&
                      frameLen > 0 && r.value == FrameCount(|LoadWaveform(mat).value|, frameLen)
  {
    var loaded := LoadWaveform(mat);
    if loaded.Err? {
      return Err(LoadFailed(loaded.error));
    }
    var wf := loaded.value;
    if frameLen == 0 {
      return Err(ZeroDivision);
    }
    var stem := Stem(matName);
    ChunkFileWrites(fs.State(), matName, mat, metaName, meta, outDir, frameLen, wf);
    var nFrames := WriteAllFrames(fs, outDir, stem, wf, frameLen, Suffix(metaName), meta);
    fs.Print(Chunked(stem, nFrames, frameLen));
    return Ok(nFrames);
  }
}
