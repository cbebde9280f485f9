/**
 * `main` of chunk_dataset_mat.py: measure the frame length on a reference
 * file, choose the output root, then walk the input root's class
 * directories in sorted order and, in each, the signal files in sorted
 * order, chunking every file that has a sidecar.
 *
 * The input tree is only read, so it is a value (`Listing`); the output
 * tree is the `FileSystem` object the walk updates in place.
 */
module Batch {
  import opened Wrappers
  import opened Container
  import opened Paths
  import opened Ordering
  import opened OutputTree
  import opened Segmentation
  import opened Chunking

  /** An entry of the input root: a plain file, or a class directory with the files in it by name. */
  datatype Node = File(content: Blob) | ClassDir(entries: map<string, Blob>)

  /** The entries of the input root by name. */
  type Listing = map<string, Node>

  /** The command line, resolved, together with what the input side holds. */
  datatype Invocation = Invocation(
    inputDir: Path,          // --input_dir
    input: Option<Listing>,  // its entries; None when it is not a directory
    origMat: Option<Blob>,   // the content of --orig_mat; None when it does not exist
    outputDir: Option<Path>) // --output_dir, when given

  /** Why `sys.exit` ends the run early. */
  datatype ExitReason = InputDirNotFound | OrigMatNotFound

  /** How a run ends. */
  datatype Outcome =
    | Finished                  // "Done." printed
    | Exited(reason: ExitReason) // `sys.exit` before any output
    | Crashed(failure: Failure) // an exception escaped `main`

  /** The output side part-way through the walk: still going, or stopped by an exception. */
  datatype Progress = Running(st: FsState) | Stopped(st: FsState, failure: Failure)

  function Settle(st: FsState, failure: Option<Failure>): Progress {
    match failure
    case None => Running(st)
    case Some(f) => Stopped(st, f)
  }

  /** The names `cls.glob('*.mat')` yields. */
  function MatNames(entries: map<string, Blob>): (names: set<string>)
    ensures forall n :: n in names <==> n in entries && MatchesMatGlob(n)
  {
    set n | n in entries && MatchesMatGlob(n)
  }

  /**
   * One turn of the inner loop of `main`: find the sidecar, then warn and
   * skip, or chunk. It raises only for a file that has a sidecar and whose
   * waveform cannot be loaded, or when the frame length is zero.
   */
  function ProcessFile(st: FsState, dest: Path, entries: map<string, Blob>, name: string, frameLen: nat)
    : (r: Result<FsState, Failure>)
    requires name in entries && MatchesMatGlob(name)
    ensures r.Err? <==>
              ChooseSidecar(entries.Keys, name).Some? && (LoadWaveform(entries[name]).Err? || frameLen == 0)
    ensures r.Err? ==> r.error.LoadFailed? || r.error == ZeroDivision
    ensures ChooseSidecar(entries.Keys, name).None? ==>
              r.Ok? && r.value.files == st.files && r.value.dirs == st.dirs &&
              r.value.console == st.console + [MissingMetadata(name)]
  {
    match ChooseSidecar(entries.Keys, name)
    case None => Ok(st.Print(MissingMetadata(name)))
    case Some(meta) => ChunkFile(st, name, entries[name], meta, entries[meta], dest, frameLen)
  }

  /** The inner loop of `main` over the signal files `names`, in that order; an exception ends it. */
  function ProcessFiles(st: FsState, dest: Path, entries: map<string, Blob>, names: seq<string>, frameLen: nat)
    : Progress
    requires forall n :: n in names ==> n in MatNames(entries)
    decreases |names|
  {
    if names == [] then Running(st)
    else
      assert names[0] in names && names[0] in MatNames(entries);
      match ProcessFile(st, dest, entries, names[0], frameLen)
      case Err(f) => Stopped(st, f)
      case Ok(st') => ProcessFiles(st', dest, entries, names[1..], frameLen)
  }

  /**
   * One class directory: its header line, `out_root / cls.name` created, then
   * its files in sorted order. Whether or not a file raises, the class's
   * output directory is the one directory it creates.
   */
  ghost function ProcessClass(st: FsState, outRoot: Path, name: string, entries: map<string, Blob>, frameLen: nat)
    : (p: Progress)
    ensures p.st.dirs == st.dirs + {outRoot + [name]}
  {
    var dest := outRoot + [name];
    var st1 := st.Print(ClassHeader(name)).MakeDir(dest);
    ProcessFilesEffect(st1, dest, entries, SortedSeq(MatNames(entries)), frameLen);
    ProcessFiles(st1, dest, entries, SortedSeq(MatNames(entries)), frameLen)
  }

  /** The outer loop of `main` over the input root's entries `names`, skipping those that are not directories. */
  ghost function ProcessClasses(st: FsState, outRoot: Path, listing: Listing, names: seq<string>, frameLen: nat)
    : Progress
    decreases |names|
  {
    if names == [] then Running(st)
    else if names[0] in listing && listing[names[0]].ClassDir? then
      match ProcessClass(st, outRoot, names[0], listing[names[0]].entries, frameLen)
      case Stopped(st', f) => Stopped(st', f)
      case Running(st') => ProcessClasses(st', outRoot, listing, names[1..], frameLen)
    else
      ProcessClasses(st, outRoot, listing, names[1..], frameLen)
  }

  /** What a whole run does to the output side, and how it ends. */
  ghost function RunSpec(st: FsState, inv: Invocation): (FsState, Outcome) {
    match inv.input
    case None => (st, Exited(InputDirNotFound))
    case Some(listing) =>
      match inv.origMat
      case None => (st, Exited(OrigMatNotFound))
      case Some(orig) =>
        match MeasureFrameLen(orig)
        case Err(e) => (st, Crashed(LoadFailed(e)))
        case Ok(frameLen) =>
          var st1 := st.Print(Measured(frameLen));
          match OutputRoot(inv.inputDir, inv.outputDir)
          case Err(pe) => (st1, Crashed(BadPath(pe)))
          case Ok(root) =>
            var st2 := st1.MakeDirs(root).Print(WritingTo(root));
            match ProcessClasses(st2, root, listing, SortedSeq(listing.Keys), frameLen)
            case Stopped(st3, f) => (st3, Crashed(f))
            case Running(st3) => (st3.Print(Done), Finished)
  }

  /**
   * The body of the outer loop for one class directory. Returns the
   * exception that ended it, if any.
   */
  method ChunkClass(fs: FileSystem, outRoot: Path, name: string, entries: map<string, Blob>, frameLen: nat)
    returns (failure: Option<Failure>)
    requires fs.Valid() && outRoot in fs.dirs
    modifies fs
    ensures fs.Valid() && outRoot in fs.dirs
    ensures ProcessClass(old(fs.State()), outRoot, name, entries, frameLen) == Settle(fs.State(), failure)
  {
    fs.Print(ClassHeader(name));
    var dest := outRoot + [name];
    ParentOfChild(outRoot, name);
    fs.MakeDir(dest);
    var mats := SortNames(MatNames(entries));
    ghost var goal := ProcessFiles(fs.State(), dest, entries, mats, frameLen);
    var rest := mats;
    while rest != []
      invariant fs.Valid() && outRoot in fs.dirs && dest in fs.dirs
      invariant forall n :: n in rest ==> n in MatNames(entries)
      invariant ProcessFiles(fs.State(), dest, entries, rest, frameLen) == goal
      decreases |rest|
    {
      assert rest[0] in rest;
      failure := ChunkIfSidecar(fs, dest, entries, rest[0], frameLen);
      if failure.Some? {
        return;
      }
      rest := rest[1..];
    }
    return None;
  }

  /** The body of the inner loop for one signal file. Returns the exception it raised, if any. */
  method ChunkIfSidecar(fs: FileSystem, dest: Path, entries: map<string, Blob>, matName: string, frameLen: nat)
    returns (failure: Option<Failure>)
    requires fs.Valid() && dest in fs.dirs
    requires matName in entries && MatchesMatGlob(matName)
    modifies fs
    ensures fs.Valid() && dest in fs.dirs
    ensures failure.None? ==> ProcessFile(old(fs.State()), dest, entries, matName, frameLen) == Ok(fs.State())
    ensures failure.Some? ==> ProcessFile(old(fs.State()), dest, entries, matName, frameLen) == Err(failure.value) &&
                              fs.State() == old(fs.State())
  {
    var meta := ChooseSidecar(entries.Keys, matName);
    if meta.None? {
      fs.Print(MissingMetadata(matName));
      return None;
    }
    var r := ChunkFileToFrames(fs, matName, entries[matName], meta.value, entries[meta.value], dest, frameLen);
    if r.Err? {
      return Some(r.error);
    }
    return None;
  }

  /** The outer loop of `main`: every class directory of the input root, in sorted order. */
  method ChunkClasses(fs: FileSystem, outRoot: Path, listing: Listing, frameLen: nat) returns (failure: Option<Failure>)
    requires fs.Valid() && outRoot in fs.dirs
    modifies fs
    ensures fs.Valid()
    ensures ProcessClasses(old(fs.State()), outRoot, listing, SortedSeq(listing.Keys), frameLen) == Settle(fs.State(), failure)
  {
    var classes := SortNames(listing.Keys);
    ghost var goal := ProcessClasses(fs.State(), outRoot, listing, classes, frameLen);
    var rest := classes;
    while rest != []
      invariant fs.Valid() && outRoot in fs.dirs
      invariant forall n :: n in rest ==> n in listing
      invariant ProcessClasses(fs.State(), outRoot, listing, rest, frameLen) == goal
      decreases |rest|
    {
      var name := rest[0];
      assert name in rest;
      if listing[name].ClassDir? {
        failure := ChunkClass(fs, outRoot, name, listing[name].entries, frameLen);
        if failure.Some? {
          return;
        }
      }
      rest := rest[1..];
    }
    return None;
  }

  /** `main`, from the argument checks to "Done.". */
  method Run(fs: FileSystem, inv: Invocation) returns (outcome: Outcome)
    requires fs.Valid()
    modifies fs
    ensures fs.Valid()
    ensures (fs.State(), outcome) == RunSpec(old(fs.State()), inv)
  {
    if inv.input.None? {
      return Exited(InputDirNotFound);
    }
    var listing := inv.input.value;
    if inv.origMat.None? {
      return Exited(OrigMatNotFound);
    }
    var measured := MeasureFrameLen(inv.origMat.value);
    if measured.Err? {
      return Crashed(LoadFailed(measured.error));
    }
    var frameLen := measured.value;
    fs.Print(Measured(frameLen));
    var root := OutputRoot(inv.inputDir, inv.outputDir);
    if root.Err? {
      return Crashed(BadPath(root.error));
    }
    var outRoot := root.value;
    fs.MakeDirs(outRoot);
    fs.Print(WritingTo(outRoot));
    var failure := ChunkClasses(fs, outRoot, listing, frameLen);
    if failure.Some? {
      return Crashed(failure.value);
    }
    fs.Print(Done);
    return Finished;
  }

  /*
   * Properties of the walk.
   */

  /**
   * The sidecar of `stem.mat` is `stem.yaml` when present, else `stem.yml`;
   * with neither, the file is skipped with a warning and nothing is written.
   */
  lemma SidecarChoice(st: FsState, dest: Path, entries: map<string, Blob>, name: string, frameLen: nat)
    requires name in entries && MatchesMatGlob(name)
    ensures var yaml, yml := WithSuffix(name, ".yaml"), WithSuffix(name, ".yml");
            var r := ProcessFile(st, dest, entries, name, frameLen);
            && (yaml in entries ==> r == ChunkFile(st, name, entries[name], yaml, entries[yaml], dest, frameLen))
            && (yaml !in entries && yml in entries ==>
                  r == ChunkFile(st, name, entries[name], yml, entries[yml], dest, frameLen))
            && (yaml !in entries && yml !in entries ==> r == Ok(st.Print(MissingMetadata(name))))
  {
  }

  /** A skipped file does not stop the walk: the next file is processed from the state after the warning. */
  lemma SkipContinues(st: FsState, dest: Path, entries: map<string, Blob>, names: seq<string>, frameLen: nat)
    requires forall n :: n in names ==> n in MatNames(entries)
    requires names != [] && names[0] in MatNames(entries)
    requires ChooseSidecar(entries.Keys, names[0]).None?
    ensures ProcessFiles(st, dest, entries, names, frameLen) ==
            ProcessFiles(st.Print(MissingMetadata(names[0])), dest, entries, names[1..], frameLen)
  {
  }

  /** An empty reference waveform gives frame length 0: the first file with a sidecar that loads raises ZeroDivisionError. */
  lemma ZeroFrameLenRaises(st: FsState, dest: Path, entries: map<string, Blob>, name: string)
    requires name in entries && MatchesMatGlob(name)
    requires ChooseSidecar(entries.Keys, name).Some?
    requires LoadWaveform(entries[name]).Ok?
    ensures ProcessFile(st, dest, entries, name, 0) == Err(ZeroDivision)
  {
  }

  /** A run that exits on its argument checks changes nothing. */
  lemma AbortsBeforeProcessing(st: FsState, inv: Invocation)
    requires inv.input.None? || inv.origMat.None?
    ensures RunSpec(st, inv).0 == st
    ensures RunSpec(st, inv).1 == Exited(if inv.input.None? then InputDirNotFound else OrigMatNotFound)
  {
  }

  /** The class names in the "Class: ..." lines of `log`, in order. */
  function ClassHeaders(log: seq<Event>): seq<string>
    decreases |log|
  {
    if log == [] then []
    else
      var e := log[|log| - 1];
      ClassHeaders(log[..|log| - 1]) + (if e.ClassHeader? then [e.name] else [])
  }

  lemma {:induction false} ClassHeadersAppend(a: seq<Event>, b: seq<Event>)
    ensures ClassHeaders(a + b) == ClassHeaders(a) + ClassHeaders(b)
    decreases |b|
  {
    if b != [] {
      var k := |b| - 1;
      var e := b[k];
      var tail := if e.ClassHeader? then [e.name] else [];
      assert (a + b)[..|a + b| - 1] == a + b[..k];
      assert (a + b)[|a + b| - 1] == e;
      assert ClassHeaders(a + b) == ClassHeaders(a + b[..k]) + tail;
      assert ClassHeaders(b) == ClassHeaders(b[..k]) + tail;
      ClassHeadersAppend(a, b[..k]);
    } else {
      assert a + b == a;
    }
  }

  /** The entries of `names` that are class directories, in order. */
  function ClassDirs(listing: Listing, names: seq<string>): (dirs: seq<string>)
    ensures forall x :: x in dirs <==> x in names && x in listing && listing[x].ClassDir?
  {
    if names == [] then []
    else (if names[0] in listing && listing[names[0]].ClassDir? then [names[0]] else []) + ClassDirs(listing, names[1..])
  }

  lemma {:induction false} ClassDirsSorted(listing: Listing, names: seq<string>)
    requires StrictlySorted(names)
    ensures StrictlySorted(ClassDirs(listing, names))
  {
    if names != [] {
      var tail := names[1..];
      assert StrictlySorted(tail) by {
        forall i, j | 0 <= i < j < |tail| ensures Below(tail[i], tail[j]) {
          assert tail[i] == names[i + 1] && tail[j] == names[j + 1];
        }
      }
      ClassDirsSorted(listing, tail);
      var rest := ClassDirs(listing, tail);
      forall x | x in rest ensures Below(names[0], x) {
        var j :| 0 <= j < |tail| && tail[j] == x;
        assert names[j + 1] == x;
      }
    }
  }

  /** `p` lies strictly inside the directory `dir`. */
  predicate Within(p: Path, dir: Path) {
    |dir| < |p| && p[..|dir|] == dir
  }

  /**
   * Going from `st` to `st'` creates or overwrites files only inside `dir`:
   * every new path lies inside it, and every file outside it keeps its content.
   */
  ghost predicate ChangesOnlyWithin(st: FsState, st': FsState, dir: Path) {
    && (forall q :: q in st'.files ==> q in st.files || Within(q, dir))
    && (forall q :: q in st.files && !Within(q, dir) ==> q in st'.files && st'.files[q] == st.files[q])
  }

  lemma ChangesOnlyWithinTrans(a: FsState, b: FsState, c: FsState, dir: Path)
    requires ChangesOnlyWithin(a, b, dir) && ChangesOnlyWithin(b, c, dir)
    ensures ChangesOnlyWithin(a, c, dir)
  {
  }

  /** What stays inside a class's output directory stays inside the output root. */
  lemma ChangesOnlyWithinParent(a: FsState, b: FsState, outRoot: Path, c: string)
    requires ChangesOnlyWithin(a, b, outRoot + [c])
    ensures ChangesOnlyWithin(a, b, outRoot)
  {
    forall x | Within(x, outRoot + [c]) ensures Within(x, outRoot) {
      assert x[..|outRoot|] == x[..|outRoot + [c]|][..|outRoot|];
    }
  }

  /**
   * One turn of the inner loop prints no class header, creates no
   * directory and writes only inside the class's output directory.
   */
  lemma ProcessFileEffect(st: FsState, dest: Path, entries: map<string, Blob>, name: string, frameLen: nat)
    requires name in entries && MatchesMatGlob(name)
    ensures var r := ProcessFile(st, dest, entries, name, frameLen);
            r.Ok? ==>
              && st.console <= r.value.console
              && ClassHeaders(r.value.console) == ClassHeaders(st.console)
              && r.value.dirs == st.dirs
              && ChangesOnlyWithin(st, r.value, dest)
  {
    match ChooseSidecar(entries.Keys, name)
    case None =>
      ClassHeadersAppend(st.console, [MissingMetadata(name)]);
    case Some(meta) =>
      if ChunkFile(st, name, entries[name], meta, entries[meta], dest, frameLen).Ok? {
        ChunkFileInside(st, name, entries[name], meta, entries[meta], dest, frameLen);
      }
  }

  /** Chunking a file prints one progress line, creates no directory and writes only inside `outDir`. */
  lemma ChunkFileInside(st: FsState, matName: string, mat: Blob, metaName: string, meta: Blob,
                        outDir: Path, frameLen: nat)
    requires Suffix(metaName) == ".yaml" || Suffix(metaName) == ".yml"
    requires ChunkFile(st, matName, mat, metaName, meta, outDir, frameLen).Ok?
    ensures var st' := ChunkFile(st, matName, mat, metaName, meta, outDir, frameLen).value;
            && st.console <= st'.console
            && |st'.console| == |st.console| + 1 && st'.console[|st.console|].Chunked?
            && ClassHeaders(st'.console) == ClassHeaders(st.console)
            && st'.dirs == st.dirs
            && ChangesOnlyWithin(st, st', outDir)
  {
    var st' := ChunkFile(st, matName, mat, metaName, meta, outDir, frameLen).value;
    ChunkFileEffect(st, matName, mat, metaName, meta, outDir, frameLen, st');
    var wf := LoadWaveform(mat).value;
    var n := FrameCount(|wf|, frameLen);
    var stem, ext := Stem(matName), Suffix(metaName);
    ClassHeadersAppend(st.console, [Chunked(stem, n, frameLen)]);
    FramePathsInside(outDir, stem, ext, n);
    var written := FramePaths(outDir, stem, ext, n);
    forall q | q in st'.files
      ensures q in st.files || Within(q, outDir)
    {
      assert q in st.files.Keys + written;
    }
    forall q | q in st.files && !Within(q, outDir)
      ensures q in st'.files && st'.files[q] == st.files[q]
    {
      assert q !in written;
    }
  }

  /**
   * The inner loop prints no class header, creates no directory and writes
   * only inside the class's output directory.
   */
  lemma {:induction false} ProcessFilesEffect(st: FsState, dest: Path, entries: map<string, Blob>, names: seq<string>,
                                              frameLen: nat)
    requires forall n :: n in names ==> n in MatNames(entries)
    ensures var p := ProcessFiles(st, dest, entries, names, frameLen);
            && st.console <= p.st.console
            && ClassHeaders(p.st.console) == ClassHeaders(st.console)
            && p.st.dirs == st.dirs
            && ChangesOnlyWithin(st, p.st, dest)
    decreases |names|
  {
    if names != [] {
      assert names[0] in names;
      ProcessFileEffect(st, dest, entries, names[0], frameLen);
      var r := ProcessFile(st, dest, entries, names[0], frameLen);
      if r.Ok? {
        ProcessFilesEffect(r.value, dest, entries, names[1..], frameLen);
        var p := ProcessFiles(r.value, dest, entries, names[1..], frameLen);
        ChangesOnlyWithinTrans(st, r.value, p.st, dest);
      }
    }
  }

  /**
   * The outer loop prints one "Class: ..." line per class directory, in
   * the order of `names`, skipping other entries.
   */
  lemma {:induction false} ProcessClassesHeaders(st: FsState, outRoot: Path, listing: Listing, names: seq<string>,
                                                 frameLen: nat)
    ensures var p := ProcessClasses(st, outRoot, listing, names, frameLen);
            p.Running? ==> ClassHeaders(p.st.console) == ClassHeaders(st.console) + ClassDirs(listing, names)
    decreases |names|, 2
  {
    if names != [] {
      var c := names[0];
      if c in listing && listing[c].ClassDir? {
        ClassDirHeaders(st, outRoot, listing, names, frameLen);
      } else {
        ProcessClassesHeaders(st, outRoot, listing, names[1..], frameLen);
        assert ClassDirs(listing, names) == ClassDirs(listing, names[1..]);
      }
    }
  }

  /** The step of `ProcessClassesHeaders` for a class directory. */
  lemma ClassDirHeaders(st: FsState, outRoot: Path, listing: Listing, names: seq<string>, frameLen: nat)
    requires names != [] && names[0] in listing && listing[names[0]].ClassDir?
    ensures var p := ProcessClasses(st, outRoot, listing, names, frameLen);
            p.Running? ==> ClassHeaders(p.st.console) == ClassHeaders(st.console) + ClassDirs(listing, names)
    decreases |names|, 1
  {
    var c := names[0];
    var q := ProcessClass(st, outRoot, c, listing[c].entries, frameLen);
    ProcessClassEffect(st, outRoot, c, listing[c].entries, frameLen);
    ProcessClassesStep(st, outRoot, listing, names, frameLen);
    HeadersAfterClass(st, q, outRoot, listing, names, frameLen);
  }

  /** `ProcessClasses` on a list headed by a class directory, with that class's outcome `q` named. */
  lemma ProcessClassesStep(st: FsState, outRoot: Path, listing: Listing, names: seq<string>, frameLen: nat)
    requires names != [] && names[0] in listing && listing[names[0]].ClassDir?
    ensures var q := ProcessClass(st, outRoot, names[0], listing[names[0]].entries, frameLen);
            ProcessClasses(st, outRoot, listing, names, frameLen)
            == if q.Stopped? then q else ProcessClasses(q.st, outRoot, listing, names[1..], frameLen)
  {
  }

  /** The headers after a class directory whose own run `q` printed its header and no other. */
  lemma HeadersAfterClass(st: FsState, q: Progress, outRoot: Path, listing: Listing, names: seq<string>, frameLen: nat)
    requires names != [] && names[0] in listing && listing[names[0]].ClassDir?
    requires ClassHeaders(q.st.console) == ClassHeaders(st.console) + [names[0]]
    requires ProcessClasses(st, outRoot, listing, names, frameLen)
             == if q.Stopped? then q else ProcessClasses(q.st, outRoot, listing, names[1..], frameLen)
    ensures var p := ProcessClasses(st, outRoot, listing, names, frameLen);
            p.Running? ==> ClassHeaders(p.st.console) == ClassHeaders(st.console) + ClassDirs(listing, names)
    decreases |names|, 0
  {
    var rest := ClassDirs(listing, names[1..]);
    assert ClassDirs(listing, names) == [names[0]] + rest;
    if q.Running? {
      ProcessClassesHeaders(q.st, outRoot, listing, names[1..], frameLen);
      ConsAssoc(ClassHeaders(st.console), names[0], rest);
    }
  }

  lemma ConsAssoc<T>(a: seq<T>, x: T, b: seq<T>)
    ensures a + ([x] + b) == (a + [x]) + b
  {
  }

  /**
   * `e` is the line the inner loop prints for the signal file `name`: the
   * warning when it has no sidecar, else its progress line, which is only
   * printed once the file has loaded with a positive frame length.
   */
  ghost predicate LineFor(entries: map<string, Blob>, name: string, frameLen: nat, e: Event) {
    && name in entries && MatchesMatGlob(name)
    && match ChooseSidecar(entries.Keys, name)
       case None => e == MissingMetadata(name)
       case Some(_) =>
         && frameLen > 0 && LoadWaveform(entries[name]).Ok?
         && e == Chunked(Stem(name), FrameCount(|LoadWaveform(entries[name]).value|, frameLen), frameLen)
  }

  /** One turn of the inner loop that does not raise prints exactly the line for its file. */
  lemma ProcessFileLine(st: FsState, dest: Path, entries: map<string, Blob>, name: string, frameLen: nat)
    requires name in entries && MatchesMatGlob(name)
    ensures var r := ProcessFile(st, dest, entries, name, frameLen);
            r.Ok? ==> |r.value.console| == |st.console| + 1 && st.console <= r.value.console &&
                      LineFor(entries, name, frameLen, r.value.console[|st.console|])
  {
    match ChooseSidecar(entries.Keys, name)
    case None =>
    case Some(meta) =>
      var c := ChunkFile(st, name, entries[name], meta, entries[meta], dest, frameLen);
      if c.Ok? {
        ChunkFileEffect(st, name, entries[name], meta, entries[meta], dest, frameLen, c.value);
      }
  }

  /** `log` holds, in order, the line for each signal file of `names`. */
  ghost predicate LinesFor(entries: map<string, Blob>, names: seq<string>, frameLen: nat, log: seq<Event>) {
    |log| == |names| && forall j :: 0 <= j < |names| ==> LineFor(entries, names[j], frameLen, log[j])
  }

  lemma LinesForCons(entries: map<string, Blob>, names: seq<string>, frameLen: nat, e: Event, log: seq<Event>)
    requires names != []
    requires LineFor(entries, names[0], frameLen, e) && LinesFor(entries, names[1..], frameLen, log)
    ensures LinesFor(entries, names, frameLen, [e] + log)
  {
    forall j | 0 <= j < |names| ensures LineFor(entries, names[j], frameLen, ([e] + log)[j]) {
      if j > 0 {
        assert names[j] == names[1..][j - 1];
      }
    }
  }

  /** The part of `c` after `a` is the element of `b` that follows `a`, then the part of `c` after `b`. */
  lemma SuffixStep<T>(a: seq<T>, b: seq<T>, c: seq<T>)
    requires a <= b && b <= c && |b| == |a| + 1
    ensures c[|a|..] == [b[|a|]] + c[|b|..]
  {
  }

  /** A turn of the inner loop that does not raise hands its state to the rest of the loop. */
  lemma ProcessFilesStep(st: FsState, dest: Path, entries: map<string, Blob>, names: seq<string>, frameLen: nat)
    requires forall n :: n in names ==> n in MatNames(entries)
    requires names != [] && names[0] in MatNames(entries)
    requires ProcessFile(st, dest, entries, names[0], frameLen).Ok?
    ensures ProcessFiles(st, dest, entries, names, frameLen) ==
            ProcessFiles(ProcessFile(st, dest, entries, names[0], frameLen).value, dest, entries, names[1..], frameLen)
  {
  }

  /**
   * An inner loop that runs to the end prints one line per signal file, in
   * the order of `names`.
   */
  lemma {:induction false} ProcessFilesLines(st: FsState, dest: Path, entries: map<string, Blob>, names: seq<string>,
                                             frameLen: nat)
    requires forall n :: n in names ==> n in MatNames(entries)
    ensures var p := ProcessFiles(st, dest, entries, names, frameLen);
            p.Running? ==> st.console <= p.st.console && LinesFor(entries, names, frameLen, p.st.console[|st.console|..])
    decreases |names|
  {
    if names != [] {
      assert names[0] in names;
      ProcessFileLine(st, dest, entries, names[0], frameLen);
      var r := ProcessFile(st, dest, entries, names[0], frameLen);
      if r.Ok? {
        ProcessFilesStep(st, dest, entries, names, frameLen);
        ProcessFilesLines(r.value, dest, entries, names[1..], frameLen);
        var p := ProcessFiles(r.value, dest, entries, names[1..], frameLen);
        if p.Running? {
          SuffixStep(st.console, r.value.console, p.st.console);
          LinesForCons(entries, names, frameLen, r.value.console[|st.console|], p.st.console[|r.value.console|..]);
        }
      }
    } else {
      var p := ProcessFiles(st, dest, entries, names, frameLen);
      assert p.st.console[|st.console|..] == [];
    }
  }

  /**
   * A class directory that is processed to the end prints its "Class: ..."
   * line and then one line per signal file, the files taken in sorted order.
   */
  lemma ProcessClassLines(st: FsState, outRoot: Path, c: string, entries: map<string, Blob>, frameLen: nat)
    ensures var p := ProcessClass(st, outRoot, c, entries, frameLen);
            p.Running? ==>
              && st.console <= p.st.console && |p.st.console| > |st.console|
              && p.st.console[|st.console|] == ClassHeader(c)
              && LinesFor(entries, SortedSeq(MatNames(entries)), frameLen, p.st.console[|st.console| + 1..])
  {
    var dest := outRoot + [c];
    var st1 := st.Print(ClassHeader(c)).MakeDir(dest);
    var files := SortedSeq(MatNames(entries));
    assert st1.console == st.console + [ClassHeader(c)];
    ProcessFilesLines(st1, dest, entries, files, frameLen);
    var p := ProcessFiles(st1, dest, entries, files, frameLen);
    assert ProcessClass(st, outRoot, c, entries, frameLen) == p;
    if p.Running? {
      var lines := p.st.console[|st1.console|..];
      assert LinesFor(entries, files, frameLen, lines);
      assert p.st.console[|st.console|] == st1.console[|st.console|];
      assert p.st.console[|st.console| + 1..] == lines;
    }
  }

  /**
   * One class directory prints its own "Class: ..." line and no other, and
   * writes only inside the output root.
   */
  lemma ProcessClassEffect(st: FsState, outRoot: Path, c: string, entries: map<string, Blob>, frameLen: nat)
    ensures var p := ProcessClass(st, outRoot, c, entries, frameLen);
            && ClassHeaders(p.st.console) == ClassHeaders(st.console) + [c]
            && ChangesOnlyWithin(st, p.st, outRoot)
  {
    var dest := outRoot + [c];
    var st1 := st.Print(ClassHeader(c)).MakeDir(dest);
    ClassHeadersAppend(st.console, [ClassHeader(c)]);
    ProcessFilesEffect(st1, dest, entries, SortedSeq(MatNames(entries)), frameLen);
    var p := ProcessClass(st, outRoot, c, entries, frameLen);
    ChangesOnlyWithinParent(st1, p.st, outRoot, c);
  }

  /**
   * A run that finishes has printed a "Class: ..." line for exactly the
   * input root's class directories, each once, in sorted order.
   */
  lemma RunVisitsClassesInOrder(st: FsState, inv: Invocation)
    requires inv.input.Some?
    requires RunSpec(st, inv).1 == Finished
    ensures var printed := ClassHeaders(RunSpec(st, inv).0.console);
            var listing := inv.input.value;
            && ClassHeaders(st.console) <= printed
            && var visited := printed[|ClassHeaders(st.console)|..];
               && StrictlySorted(visited)
               && (forall c :: c in visited <==> c in listing && listing[c].ClassDir?)
  {
    var listing := inv.input.value;
    var names := SortedSeq(listing.Keys);
    FinishedRunHeaders(st, inv);
    ClassDirsSorted(listing, names);
    var printed := ClassHeaders(RunSpec(st, inv).0.console);
    assert printed[|ClassHeaders(st.console)|..] == ClassDirs(listing, names);
  }

  /** A run that finishes has measured the frame length, resolved the output root and run every class. */
  lemma FinishedRunShape(st: FsState, inv: Invocation)
    requires inv.input.Some?
    requires RunSpec(st, inv).1 == Finished
    ensures inv.origMat.Some? && MeasureFrameLen(inv.origMat.value).Ok?
    ensures OutputRoot(inv.inputDir, inv.outputDir).Ok?
    ensures var frameLen := MeasureFrameLen(inv.origMat.value).value;
            var root := OutputRoot(inv.inputDir, inv.outputDir).value;
            var st2 := st.Print(Measured(frameLen)).MakeDirs(root).Print(WritingTo(root));
            var p := ProcessClasses(st2, root, inv.input.value, SortedSeq(inv.input.value.Keys), frameLen);
            p.Running? && RunSpec(st, inv).0 == p.st.Print(Done)
  {
  }

  /** The "Class: ..." lines of a finished run are those of the class directories in `sorted` order. */
  lemma FinishedRunHeaders(st: FsState, inv: Invocation)
    requires inv.input.Some?
    requires RunSpec(st, inv).1 == Finished
    ensures ClassHeaders(RunSpec(st, inv).0.console) ==
            ClassHeaders(st.console) + ClassDirs(inv.input.value, SortedSeq(inv.input.value.Keys))
  {
    var listing := inv.input.value;
    var frameLen := MeasureFrameLen(inv.origMat.value).value;
    var root := OutputRoot(inv.inputDir, inv.outputDir).value;
    var st2 := st.Print(Measured(frameLen)).MakeDirs(root).Print(WritingTo(root));
    var names := SortedSeq(listing.Keys);
    var p := ProcessClasses(st2, root, listing, names, frameLen);
    FinishedRunShape(st, inv);
    ClassHeadersOther(st.console, Measured(frameLen));
    ClassHeadersOther(st.console + [Measured(frameLen)], WritingTo(root));
    ProcessClassesHeaders(st2, root, listing, names, frameLen);
    ClassHeadersOther(p.st.console, Done);
  }

  /** A line other than "Class: ..." adds no header. */
  lemma ClassHeadersOther(log: seq<Event>, e: Event)
    requires !e.ClassHeader?
    ensures ClassHeaders(log + [e]) == ClassHeaders(log)
  {
    assert (log + [e])[..|log|] == log;
  }

  /** The outer loop writes only inside the output root. */
  lemma {:induction false} ProcessClassesWritesWithin(st: FsState, outRoot: Path, listing: Listing, names: seq<string>,
                                                      frameLen: nat)
    ensures var p := ProcessClasses(st, outRoot, listing, names, frameLen);
            ChangesOnlyWithin(st, p.st, outRoot)
    decreases |names|
  {
    if names != [] {
      var c := names[0];
      if c in listing && listing[c].ClassDir? {
        var q := ProcessClass(st, outRoot, c, listing[c].entries, frameLen);
        ProcessClassEffect(st, outRoot, c, listing[c].entries, frameLen);
        if q.Running? {
          ProcessClassesWritesWithin(q.st, outRoot, listing, names[1..], frameLen);
          var p := ProcessClasses(q.st, outRoot, listing, names[1..], frameLen);
          ChangesOnlyWithinTrans(st, q.st, p.st, outRoot);
        }
      } else {
        ProcessClassesWritesWithin(st, outRoot, listing, names[1..], frameLen);
      }
    }
  }

  /**
   * A run creates or overwrites files only inside the output root, and one
   * that never resolves an output root writes no file at all.
   */
  lemma RunWritesOnlyUnderOutputRoot(st: FsState, inv: Invocation)
    ensures OutputRoot(inv.inputDir, inv.outputDir).Ok? ==>
              ChangesOnlyWithin(st, RunSpec(st, inv).0, OutputRoot(inv.inputDir, inv.outputDir).value)
    ensures OutputRoot(inv.inputDir, inv.outputDir).Err? ==> RunSpec(st, inv).0.files == st.files
  {
    if inv.input.Some? && inv.origMat.Some? && MeasureFrameLen(inv.origMat.value).Ok? &&
       OutputRoot(inv.inputDir, inv.outputDir).Ok? {
      var listing := inv.input.value;
      var frameLen := MeasureFrameLen(inv.origMat.value).value;
      var root := OutputRoot(inv.inputDir, inv.outputDir).value;
      var st2 := st.Print(Measured(frameLen)).MakeDirs(root).Print(WritingTo(root));
      ProcessClassesWritesWithin(st2, root, listing, SortedSeq(listing.Keys), frameLen);
      assert st2.files == st.files;
    }
  }
}
