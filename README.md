# Chunking signal recordings into reference-length frames

`chunk_dataset_mat.py` prepares anomaly recordings so they match a reference
dataset's frame size. It does four things:

- It measures the sample count of one reference waveform (`--orig_mat`).
- It walks the class directories of `--input_dir` in sorted order, and each
  class's `*.mat` signal files in sorted order.
- It cuts every signal file that has a metadata sidecar (`.yaml`, else
  `.yml`) into consecutive, non-overlapping frames of exactly that length.
- For each frame it writes `<stem>_frame<i:04d>.mat`, holding only the frame
  as a column under `"waveform"`. Next to it goes a verbatim copy of the
  sidecar. All output lands in `<output root>/<class>/`.

The model has one module per concern:

- `Container`: a file's content as seen by the two decoders, the
  `load_waveform` key choice with its fallback decoder, and
  `measure_frame_len`.
- `Paths`: pathlib's `stem`, `suffix` and `with_suffix`; the `*.mat` glob;
  `{i:04d}` padding and the frame names; the sidecar choice; the output root.
- `Ordering`: Python's `str` order and `sorted`.
- `Segmentation`: the frame arithmetic.
- `OutputTree`: the output side as a `FileSystem` object (files, directories
  and printed lines) that the program's methods update in place.
- `Chunking`: `chunk_file_to_frames`. The method `ChunkFileToFrames` and its
  frame loop are proved against the state function `ChunkFile`.
- `Batch`: `main`. `Run` and its two nested loops are proved against the
  ghost function `RunSpec`, and the walk's properties are proved about
  `RunSpec`.

The input tree is only read, so it is a value (`Listing`). A run's
invocation carries the resolved `--input_dir`, the root's listing (absent
when it is not a directory), the reference file's content (absent when it
does not exist) and `--output_dir` when it is given.

Three behaviours follow the code rather than the usage text:

- **Zero frame length.** Nothing after measuring (lines 92-93) rejects an
  empty reference waveform. `len(wf) // frame_len` raises `ZeroDivisionError`
  at line 49, and only once a signal file that has a sidecar has loaded.
  `Batch.ZeroFrameLenRaises` models exactly that, and `frameLen == 0` is an
  input the model handles rather than a precondition.
- **Frame numbering.** `{i:04d}` only pads to *at least* four digits, so
  indices from 10000 on take more digits. `Paths.FrameFileNamesDistinct`
  proves names distinct for every index.
- **Default output root.** The help text at line 80 promises
  `<input_dir>_frames`. The code as written raises instead when the flag is
  omitted; see Findings.

## Model

| member | source | states |
|---|---|---|
| Container.Lookup | chunk_dataset_mat.py:28-29 | `'waveform' in data` / `data['waveform']`: absent iff no entry has the key, else the value of the first entry with that key |
| Container.FirstArray | chunk_dataset_mat.py:31 | the `next(...)` over values: none iff no value is an array, else an array value with no array before it in container order |
| Container.LoadWaveform | chunk_dataset_mat.py:24-36 | whatever the loader returns is the data of an array stored in the file; a file neither decoder can read fails with `Unreadable` |
| Container.LoadPrefersWaveformKey | chunk_dataset_mat.py:27-32 | a legacy container holding an array named "waveform" yields that array, flattened, wherever it stands |
| Container.LoadFirstArray | chunk_dataset_mat.py:30-32 | without a "waveform" key, the first array in container order is returned (loadmat's header entries are skipped as non-arrays) |
| Container.LoadNoArrayFails | chunk_dataset_mat.py:31-36 | a legacy container with no array makes `next` raise; the fallback decoder cannot open it, so the load fails |
| Container.LoadHierarchicalFirstKey | chunk_dataset_mat.py:33-36 | a v7.3 container, which loadmat rejects, yields its first top-level dataset, flattened |
| Container.MeasureFrameLen | chunk_dataset_mat.py:38-41 | succeeds iff the load succeeds, and is then the flattened waveform's length; otherwise it raises the loader's error |
| Container.Column | chunk_dataset_mat.py:55 | `reshape(-1, 1)`: an F×1 array with the segment's samples in order |
| Container.SaveMat | chunk_dataset_mat.py:57 | what `savemat` writes reads back through loadmat as exactly the saved variables behind loadmat's header |
| Container.SavedSegmentRoundTrip | chunk_dataset_mat.py:55-57 | a segment saved under "waveform" loads back as that segment, and measures as its length |
| Segmentation.FrameCountIsLargestFit | chunk_dataset_mat.py:49 | `len // F` whole frames fit, one more does not, and `len % F` samples remain |
| Segmentation.Frame | chunk_dataset_mat.py:52-53 | frame `i` has exactly F samples and its `k`-th sample is source sample `i*F + k` |
| Segmentation.Frames | chunk_dataset_mat.py:49-53 | there are `len // F` frames, and frame `i` lies inside the waveform and is slice `i` |
| Segmentation.FrameSlice | chunk_dataset_mat.py:52-53 | frame `i` is `wf[i*F : i*F+F]`, within bounds, for every `i < len // F` |
| Segmentation.FramesCoverPrefix | chunk_dataset_mat.py:49-55 | the frames laid end to end are the waveform's first `F*(len // F)` samples; the last `len % F` samples are in no frame |
| Segmentation.TenThousandSamples | chunk_dataset_mat.py:49-53 | 10000 samples at F = 4096 give two frames covering the first 8192 samples, and 1808 samples are dropped |
| Paths.WithSuffix | chunk_dataset_mat.py:111-112 | `with_suffix` keeps the stem and sets the suffix |
| Paths.Suffix | chunk_dataset_mat.py:59 | `suffix` is empty or a dot followed by at least one non-dot character, and it ends the name |
| Paths.SuffixEmpty | chunk_dataset_mat.py:59 | the suffix is empty exactly when no dot follows the first character or the name ends with a dot |
| Paths.Stem | chunk_dataset_mat.py:50 | a name is its stem followed by its suffix; a name with a suffix has a non-empty stem |
| Paths.ZeroPad4RoundTrip | chunk_dataset_mat.py:56 | `{i:04d}` is all digits, at least four of them, and reads back as `i` |
| Paths.ZeroPad4Width | chunk_dataset_mat.py:56 | the padded index is exactly four characters iff `i < 10000`; from 10000 on it is the plain decimal |
| Paths.FrameNameReadsBack | chunk_dataset_mat.py:56 | `{stem}_frame{i:04d}` is the stem, `_frame`, then at least four digits that read back as `i` |
| Paths.FrameNameExamples | chunk_dataset_mat.py:56 | frame 1 of `rec.mat` is `rec_frame0001.mat`; index 12345 is written `12345` |
| Paths.FrameFileNamesDistinct | chunk_dataset_mat.py:56-59 | two output names are equal only for the same stem, index and extension, for every index |
| Paths.ChooseSidecar | chunk_dataset_mat.py:111-117 | the choice is a present `.yaml`/`.yml` file with the signal's stem; none iff neither exists; `.yml` only when no `.yaml` exists |
| Paths.OutputRootAsWrittenIgnoresDefault | chunk_dataset_mat.py:95-97 | as written, an omitted `--output_dir` raises, where the intended default exists |
| Paths.OutputRoot | chunk_dataset_mat.py:95-97 | the given directory if any; else the input root's sibling named `<name>_frames`, different from the input root; `with_name` on "/" raises |
| Ordering.BelowTotal | chunk_dataset_mat.py:102 | two different names are ordered one way or the other |
| Ordering.BelowTransitive | chunk_dataset_mat.py:102 | Python's `str` order is transitive |
| Ordering.SortedSeq | chunk_dataset_mat.py:102 | `sorted`: every name once, strictly ascending, nothing else |
| Ordering.SortNames | chunk_dataset_mat.py:108 | computes `sorted` of a set of names |
| OutputTree.Ancestors | chunk_dataset_mat.py:98 | what `mkdir(parents=True)` creates: exactly the prefixes of the directory, itself and "/" included |
| OutputTree.FileSystem.MakeDirs | chunk_dataset_mat.py:98 | creates the output root and its ancestors, keeping the tree consistent |
| OutputTree.FileSystem.MakeDir | chunk_dataset_mat.py:107 | creates one directory whose parent exists |
| OutputTree.FileSystem.Save | chunk_dataset_mat.py:57-60 | creates or overwrites one file in an existing directory |
| OutputTree.FileSystem.Print | chunk_dataset_mat.py:61 | appends one printed line |
| Chunking.FramePathsInside | chunk_dataset_mat.py:56-59 | every frame output is an entry of the output directory itself |
| Chunking.FramePathInjective | chunk_dataset_mat.py:56-59 | two frame outputs of one file share a path only for the same index and extension |
| Chunking.LaterFramesElsewhere | chunk_dataset_mat.py:56-60 | iteration `k` never writes to a path of an earlier iteration |
| Chunking.ExtensionsApart | chunk_dataset_mat.py:56-59 | a frame's container and its sidecar copy have different paths |
| Chunking.WriteFramesOnlyFiles | chunk_dataset_mat.py:51-60 | the frame loop creates no directory and prints nothing |
| Chunking.WriteFramesPaths | chunk_dataset_mat.py:51-60 | the frame loop adds exactly the paths of frames `0 .. n-1`, two per frame |
| Chunking.WrittenFrameKept | chunk_dataset_mat.py:51-60 | after the loop, frame `i`'s container holds frame `i` and its sidecar copy equals the source sidecar |
| Chunking.OtherFilesKept | chunk_dataset_mat.py:51-60 | files outside the frame paths keep their content |
| Chunking.ChunkFileWrites | chunk_dataset_mat.py:48-61 | once the waveform loads and F > 0, every frame is written and one progress line is printed |
| Chunking.ChunkFile | chunk_dataset_mat.py:43-61 | succeeds iff the waveform loads and F > 0; otherwise it raises the loader's error, or ZeroDivisionError when F = 0 |
| Chunking.ChunkFileEffect | chunk_dataset_mat.py:43-61 | a successful chunking loaded the file with F > 0, wrote `len // F` frames with sidecar copies, printed one line, and changed nothing else |
| Chunking.WrittenFrameReloads | chunk_dataset_mat.py:55-57 | every frame container written loads back as its frame and measures as F |
| Chunking.SaveFrame | chunk_dataset_mat.py:52-60 | one loop iteration: slices frame `i`, saves it, copies the sidecar |
| Chunking.WriteAllFrames | chunk_dataset_mat.py:49-60 | the loop writes all `len // F` frames in order and returns their count |
| Chunking.ChunkFileToFrames | chunk_dataset_mat.py:43-61 | on success, the new state is `ChunkFile`'s and the count is `len // F` with F > 0; on a load error or F = 0 it raises before writing anything |
| Batch.MatNames | chunk_dataset_mat.py:108 | `glob('*.mat')`: exactly the class directory's names ending in `.mat` |
| Batch.SidecarChoice | chunk_dataset_mat.py:111-118 | `.yaml` is used when present, even next to a `.yml`; else `.yml`; with neither, only the warning is printed |
| Batch.SkipContinues | chunk_dataset_mat.py:115-117 | a skipped file does not stop the walk: the next file runs from the state after the warning |
| Batch.ZeroFrameLenRaises | chunk_dataset_mat.py:49 | with frame length 0, the first file with a sidecar that loads raises ZeroDivisionError |
| Batch.AbortsBeforeProcessing | chunk_dataset_mat.py:84-90 | a missing input root or reference file exits with its reason and changes nothing |
| Batch.ProcessFile | chunk_dataset_mat.py:109-118 | one file raises iff it has a sidecar and its waveform does not load or F = 0, and then only the loader's error or ZeroDivisionError; a file without a sidecar only prints the warning |
| Batch.ProcessFileEffect | chunk_dataset_mat.py:110-118 | one file appends to the printed lines, prints no class header, creates no directory, creates or overwrites files only inside its class's output directory, and leaves every file outside it as it was |
| Batch.ChunkFileInside | chunk_dataset_mat.py:56-61 | chunking one file prints exactly one line, a progress line; it creates or overwrites files only inside the class output directory and leaves every file outside it as it was |
| Batch.ProcessFilesEffect | chunk_dataset_mat.py:109-118 | a class's file loop prints no class header, creates no directory, creates or overwrites files only inside the class's output directory, and leaves every file outside it as it was |
| Batch.ProcessFileLine | chunk_dataset_mat.py:110-118 | one file that does not raise prints exactly its line: the warning when it has no sidecar, else the progress line with its stem, `len // F` and F |
| Batch.ProcessFilesLines | chunk_dataset_mat.py:109-118 | a file loop that runs to the end prints one line per file, in the order of the loop |
| Batch.ProcessClassLines | chunk_dataset_mat.py:105-118 | a class that runs to the end prints its "Class:" line, then the line of each `*.mat` file in sorted order |
| Batch.ClassDirs | chunk_dataset_mat.py:102-104 | the entries visited as classes are exactly the directories among them |
| Batch.ClassDirsSorted | chunk_dataset_mat.py:102-104 | skipping non-directories keeps the sorted order |
| Batch.ClassHeadersAppend | chunk_dataset_mat.py:105 | the "Class:" lines of two stretches of output are those of each, in order |
| Batch.ProcessClass | chunk_dataset_mat.py:105-109 | one class's directory `out_root / cls.name` is the only directory it creates, whether or not one of its files raises |
| Batch.ProcessClassEffect | chunk_dataset_mat.py:105-118 | one class prints its own "Class:" line and no other, creates or overwrites files only inside the output root, and leaves every file outside it as it was |
| Batch.ProcessClassesHeaders | chunk_dataset_mat.py:102-105 | the class loop prints one "Class:" line per class directory, in the order walked |
| Batch.FinishedRunShape | chunk_dataset_mat.py:92-120 | a finished run measured F, resolved the output root, ran every class without an exception, and printed "Done." |
| Batch.FinishedRunHeaders | chunk_dataset_mat.py:102-120 | a finished run printed "Class:" lines for exactly the class directories in sorted order |
| Batch.RunVisitsClassesInOrder | chunk_dataset_mat.py:102-105 | a finished run visited every class directory once, in strictly ascending order, and nothing else |
| Batch.RunWritesOnlyUnderOutputRoot | chunk_dataset_mat.py:95-118 | every file a run creates or overwrites lies strictly inside the output root, and every file outside it keeps its content; a run whose output root cannot be computed writes no file |
| Batch.ChunkIfSidecar | chunk_dataset_mat.py:110-118 | the inner loop's body: its new state or exception is `ProcessFile`'s, and it changes nothing when it raises |
| Batch.ChunkClass | chunk_dataset_mat.py:105-118 | the outer loop's body for one class: header, `mkdir`, then the files in sorted order until one raises |
| Batch.ChunkClasses | chunk_dataset_mat.py:102-118 | the outer loop over the sorted root entries, skipping non-directories, ends as `ProcessClasses` says |
| Batch.Run | chunk_dataset_mat.py:84-120 | `main`: the final output state and the way the run ends are `RunSpec`'s |

## Left out

- Decoding and encoding of MAT files (scipy and h5py). A file's content is
  given by which decoder can read it and the named values each returns. A v7.3
  group at the first key is modelled as a non-array entry (`NotAnArray`).
- Sample values and dtypes. Samples are an opaque type; `flatten` is the
  stored row-major data.
- `expanduser`/`resolve`, standard error and `sys.exit` messages, and the
  wording of printed lines. Paths are resolved component lists, exits are an
  `Outcome`, and each `print` is one `Event`.
- Subdirectories inside class directories. A directory named `*.mat`,
  `*.yaml` or `*.yml` is not modelled: a class directory maps names to file
  contents.
- An output root inside the input root, or inside a class directory. The
  input listing is taken before the run, so files the run writes are never
  walked.
- `mkdir` or `savemat` colliding with an existing file of the same name, file
  permissions, and disk errors. Every write succeeds in the model.
- Path ordering by `sorted` on `Path` objects is modelled as ordering by name.
  Entries of one directory share their parent, so this is the same order.
- Batch.RunVisitsClassesInOrder: stated for runs that finish. A run that
  crashes has visited a prefix of the same order, which is not stated
  separately.
- Batch.Run: `Run` and `RunSpec` compute the output root with the corrected
  `Paths.OutputRoot`, so a run without `--output_dir` writes to
  `<input_dir>_frames`. As written, such a run prints the measured length
  and then raises TypeError at line 95 (see Findings). The run model does not
  reproduce that crash; `Paths.OutputRootAsWrittenIgnoresDefault` does.
- A positivity check on the frame length does not exist in the program. A
  zero length is modelled as the ZeroDivisionError raised at line 49
  (`Batch.ZeroFrameLenRaises`), not as a precondition.

## Findings

| source | as written | input that shows it | evidently intended | confidence | as-written member | corrected member |
|---|---|---|---|---|---|---|
| chunk_dataset_mat.py:95 | `Path(args.output_dir)` is evaluated before the `None` test on line 96, so an omitted flag raises TypeError | a run without `--output_dir` | the output root defaults to the input root's sibling `<name>_frames` (lines 96-97, help text at line 80) | not executed | Paths.OutputRootAsWrittenIgnoresDefault | Paths.OutputRoot |
