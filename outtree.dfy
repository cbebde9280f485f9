/**
 * The part of the world the program changes: the files and directories it
 * creates and the lines it prints. The input tree is only read and is a
 * plain value elsewhere; this is the output side, updated in place.
 */
module OutputTree {
  import opened Container
  import opened Paths

  /** The lines printed to standard output, one constructor per `print` of chunk_dataset_mat.py. */
  datatype Event =
    | Measured(frameLen: nat)                           // "Measured original frame length = ..."
    | WritingTo(root: Path)                             // "Writing frames to: ..."
    | ClassHeader(name: string)                         // "Class: ..."
    | MissingMetadata(fileName: string)                 // "  [WARN] no metadata for ..., skipping"
    | Chunked(stem: string, frames: nat, frameLen: nat) // "  -> stem: n frames of length F"
    | Done                                              // "Done."

  function Parent(p: Path): Path
    requires |p| > 0
  {
    p[..|p| - 1]
  }

  lemma ParentOfChild(d: Path, name: string)
    ensures Parent(d + [name]) == d
  {
    assert (d + [name])[..|d|] == d;
  }

  /** `p` and every directory above it, down to "/". */
  function Ancestors(p: Path): (a: set<Path>)
    ensures p in a && [] in a
    ensures forall q :: q in a ==> |q| <= |p| && q == p[..|q|]
    ensures forall k :: 0 <= k <= |p| ==> p[..k] in a
  {
    assert p[..|p|] == p && p[..0] == [];
    set k | 0 <= k <= |p| :: p[..k]
  }

  /** A snapshot of the output side: files with their content, directories, printed lines. */
  datatype FsState = FsState(files: map<Path, Blob>, dirs: set<Path>, console: seq<Event>) {

    /** Every file and every directory but "/" lies in an existing directory. */
    ghost predicate Consistent() {
      && (forall p :: p in files ==> |p| > 0 && Parent(p) in dirs)
      && (forall d :: d in dirs && |d| > 0 ==> Parent(d) in dirs)
    }

    /** `savemat` or `shutil.copy` to `p`: creates or overwrites that one file. */
    function Write(p: Path, b: Blob): FsState {
      this.(files := files[p := b])
    }

    /** `mkdir(exist_ok=True)` of one directory. */
    function MakeDir(p: Path): FsState {
      this.(dirs := dirs + {p})
    }

    /** `mkdir(parents=True, exist_ok=True)`. */
    function MakeDirs(p: Path): FsState {
      this.(dirs := dirs + Ancestors(p))
    }

    function Print(e: Event): FsState {
      this.(console := console + [e])
    }
  }

  /** The output file system the run writes into. */
  class FileSystem {
    var files: map<Path, Blob>
    var dirs: set<Path>
    var console: seq<Event>

    function State(): FsState
      reads this
    {
      FsState(files, dirs, console)
    }

    ghost predicate Valid()
      reads this
    {
      State().Consistent()
    }

    constructor (initial: FsState)
      requires initial.Consistent()
      ensures Valid() && State() == initial
    {
      files, dirs, console := initial.files, initial.dirs, initial.console;
    }

    method MakeDirs(p: Path)
      requires Valid()
      modifies this
      ensures Valid() && State() == old(State()).MakeDirs(p)
    {
      dirs := dirs + Ancestors(p);
      forall d | d in dirs && |d| > 0
        ensures Parent(d) in dirs
      {
        if d in Ancestors(p) {
          assert Parent(d) == p[..|d| - 1];
        }
      }
    }

    method MakeDir(p: Path)
      requires Valid() && |p| > 0 && Parent(p) in dirs
      modifies this
      ensures Valid() && State() == old(State()).MakeDir(p)
    {
      dirs := dirs + {p};
    }

    /** Writing a file needs its directory to exist (otherwise the write raises). */
    method Save(p: Path, b: Blob)
      requires Valid() && |p| > 0 && Parent(p) in dirs
      modifies this
      ensures Valid() && State() == old(State()).Write(p, b)
    {
      files := files[p := b];
    }

    method Print(e: Event)
      requires Valid()
      modifies this
      ensures Valid() && State() == old(State()).Print(e)
    {
      console := console + [e];
    }
  }
}
