/**
 * The file system the builder works on, as a value: regular files with their
 * contents and a set of directories, both keyed by paths written as sequences of
 * segments. The empty path is the working directory, which always exists. The
 * primitives the builder calls (`os.path.exists`, `shutil.copy`,
 * `Path.mkdir(parents=True, exist_ok=True)` and `os.listdir`) are functions on
 * this value; the class `FileSystem` holds the one mutable file system of a run.
 */
module FileSystem {
  import opened Wrappers
  import opened Seqs

  type Segment = string
  type Path = seq<Segment>
  type Content = seq<bv8>

  /** The `OSError` subclasses the primitives raise. */
  datatype FsError =
    | NotFound(path: Path)        // FileNotFoundError
    | IsADirectory(path: Path)    // IsADirectoryError
    | NotADirectory(path: Path)   // NotADirectoryError
    | FileExists(path: Path)      // FileExistsError
    | SameFile(path: Path)        // shutil.SameFileError

  datatype Fs = Fs(files: map<Path, Content>, dirs: set<Path>)

  function Parent(p: Path): Path
  {
    if p == [] then [] else p[..|p| - 1]
  }

  function Basename(p: Path): Segment
  {
    if p == [] then "" else p[|p| - 1]
  }

  predicate IsDir(fs: Fs, p: Path)
  {
    p == [] || p in fs.dirs
  }

  /** `os.path.exists`: a regular file or a directory lives at `p`. */
  predicate Exists(fs: Fs, p: Path)
  {
    p in fs.files || IsDir(fs, p)
  }

  /**
   * A file system that can exist: nothing is both a file and a directory, the
   * working directory is not a file, and everything lives in a directory.
   */
  ghost predicate Valid(fs: Fs)
  {
    && [] !in fs.files
    && fs.files.Keys !! fs.dirs
    && (forall d :: d in fs.dirs ==> IsDir(fs, Parent(d)))
    && (forall f :: f in fs.files ==> IsDir(fs, Parent(f)))
  }

  // ---------------------------------------------------------------- shutil.copy

  /** `shutil.copy` writes into `dst`, or into `dst/basename(src)` when `dst` is a directory. */
  function CopyTarget(fs: Fs, src: Path, dst: Path): Path
  {
    if IsDir(fs, dst) then dst + [Basename(src)] else dst
  }

  /**
   * `shutil.copy(src, dst)`: the target is worked out first; copying a file onto
   * itself, reading something that is not a regular file, and writing where there
   * is no directory or where a directory is are the ways it fails; a regular file
   * anywhere on the way to a path is reported as not a directory, as path
   * resolution does, and a missing one as not found. On success the
   * target holds the content of `src`, whatever was there before.
   */
  function Copy(fs: Fs, src: Path, dst: Path): Result<Fs, FsError>
  {
    var target := CopyTarget(fs, src, dst);
    if src == target && Exists(fs, src) then Err(SameFile(src))
    else if src !in fs.files then
      (if IsDir(fs, src) then Err(IsADirectory(src))
       else if !NoFileOnPath(fs, Parent(src)) then Err(NotADirectory(src))
       else Err(NotFound(src)))
    else if !IsDir(fs, Parent(target)) then
      (if !NoFileOnPath(fs, Parent(target)) then Err(NotADirectory(target)) else Err(NotFound(target)))
    else if IsDir(fs, target) then Err(IsADirectory(target))
    else Ok(Fs(fs.files[target := fs.files[src]], fs.dirs))
  }

  /**
   * A successful copy writes exactly one entry, its target, with the content the
   * source had; the directories and every other file stay as they were.
   */
  lemma CopyFrame(fs: Fs, src: Path, dst: Path)
    requires Copy(fs, src, dst).Ok?
    ensures var after := Copy(fs, src, dst).value;
      && src in fs.files
      && after.dirs == fs.dirs
      && after.files.Keys == fs.files.Keys + {CopyTarget(fs, src, dst)}
      && after.files[CopyTarget(fs, src, dst)] == fs.files[src]
      && forall p :: p != CopyTarget(fs, src, dst) && p in fs.files ==> after.files[p] == fs.files[p]
  {
  }

  /** A copy succeeds exactly when its source is a regular file and its target can be written. */
  lemma CopySucceeds(fs: Fs, src: Path, dst: Path)
    ensures Copy(fs, src, dst).Ok? <==>
      && src in fs.files
      && src != CopyTarget(fs, src, dst)
      && IsDir(fs, Parent(CopyTarget(fs, src, dst)))
      && !IsDir(fs, CopyTarget(fs, src, dst))
  {
  }

  /** Copying keeps a file system one that can exist. */
  lemma CopyKeepsValid(fs: Fs, src: Path, dst: Path)
    requires Valid(fs)
    requires Copy(fs, src, dst).Ok?
    ensures Valid(Copy(fs, src, dst).value)
  {
  }

  // --------------------------------------------- Path.mkdir(parents, exist_ok)

  /** The paths `Path(p).mkdir(parents=True)` makes sure of: `p` and its ancestors below the root. */
  function Ancestry(p: Path): set<Path>
  {
    set k | 1 <= k <= |p| :: p[..k]
  }

  /** No regular file sits at `p` or at one of its ancestors, the working directory included. */
  predicate NoFileOnPath(fs: Fs, p: Path)
  {
    forall k | 0 <= k <= |p| :: p[..k] !in fs.files
  }

  /**
   * `Path(p).mkdir(parents=True, exist_ok=True)`: every missing directory on the
   * way to `p` is created, existing ones are fine; a regular file at `p` or on the
   * way fails the call before anything is created.
   */
  function MakeDirs(fs: Fs, p: Path): Result<Fs, FsError>
  {
    if p in fs.files then Err(FileExists(p))
    else if !NoFileOnPath(fs, p) then Err(NotADirectory(p))
    else Ok(Fs(fs.files, fs.dirs + Ancestry(p)))
  }

  /** MakeDirs fails exactly when a regular file is in the way; on success `p` and its ancestors are directories, and no file changes. */
  lemma MakeDirsEffect(fs: Fs, p: Path)
    ensures MakeDirs(fs, p).Ok? <==> NoFileOnPath(fs, p)
    ensures MakeDirs(fs, p).Ok? ==>
      && MakeDirs(fs, p).value.files == fs.files
      && fs.dirs <= MakeDirs(fs, p).value.dirs
      && MakeDirs(fs, p).value.dirs - fs.dirs <= Ancestry(p)
      && forall q :: q in Ancestry(p) ==> IsDir(MakeDirs(fs, p).value, q)
  {
    assert p[..|p|] == p;
  }

  /** Where every directory on the way to `p` already exists, MakeDirs changes nothing. */
  lemma MakeDirsWhenPresent(fs: Fs, p: Path)
    requires NoFileOnPath(fs, p)
    requires Ancestry(p) <= fs.dirs
    ensures MakeDirs(fs, p) == Ok(fs)
  {
    assert p[..|p|] == p;
    assert fs.dirs + Ancestry(p) == fs.dirs;
  }

  /** Creating directories keeps a file system one that can exist. */
  lemma MakeDirsKeepsValid(fs: Fs, p: Path)
    requires Valid(fs)
    requires MakeDirs(fs, p).Ok?
    ensures Valid(MakeDirs(fs, p).value)
  {
    var after := MakeDirs(fs, p).value;
    forall d | d in after.dirs ensures IsDir(after, Parent(d)) {
      if d !in fs.dirs {
        var k :| 1 <= k <= |p| && d == p[..k];
        assert Parent(d) == [] || Parent(d) == p[..k - 1];
      }
    }
  }

  // -------------------------------------------------------------- os.listdir

  /** The names `os.listdir(p)` reports: those of the files and directories directly inside `p`. */
  function Entries(fs: Fs, p: Path): set<Segment>
  {
    set q | q in fs.files.Keys + fs.dirs && |q| == |p| + 1 && q[..|p|] == p :: q[|p|]
  }

  /** Why `os.listdir(p)` fails, if it does: a regular file at `p` or above it, or nothing there. */
  function ListDirError(fs: Fs, p: Path): Option<FsError>
  {
    if IsDir(fs, p) then None
    else if !NoFileOnPath(fs, p) then Some(NotADirectory(p))
    else Some(NotFound(p))
  }

  /** In a file system that can exist, nothing below a regular file is a directory. */
  lemma {:induction false} FileAboveIsNotDir(fs: Fs, p: Path, k: nat)
    requires Valid(fs)
    requires k <= |p| && p[..k] in fs.files
    ensures !IsDir(fs, p)
    decreases |p|
  {
    if k == |p| {
      assert p[..k] == p;
    } else if p in fs.dirs {
      assert Parent(p)[..k] == p[..k];
      FileAboveIsNotDir(fs, Parent(p), k);
    }
  }

  /** Listing a path that has a regular file at it or above it fails as not a directory, else as not found. */
  lemma ListDirBelowFile(fs: Fs, p: Path, k: nat)
    requires Valid(fs)
    requires k <= |p| && p[..k] in fs.files
    ensures ListDirError(fs, p) == Some(NotADirectory(p))
  {
    FileAboveIsNotDir(fs, p, k);
  }

  /** Copying to a path that has a regular file above it fails as not a directory. */
  lemma CopyBelowFile(fs: Fs, src: Path, dst: Path, k: nat)
    requires Valid(fs)
    requires src in fs.files
    requires k < |dst| && dst[..k] in fs.files
    ensures Copy(fs, src, dst) == Err(NotADirectory(dst))
  {
    FileAboveIsNotDir(fs, dst, k);
    assert Parent(dst)[..k] == dst[..k];
    FileAboveIsNotDir(fs, Parent(dst), k);
    assert CopyTarget(fs, src, dst) == dst;
    assert !NoFileOnPath(fs, Parent(dst));
  }

  /** An order in which `os.listdir` may report the names of a directory: each once. */
  ghost predicate Enumerates(listing: seq<Segment>, names: set<Segment>)
  {
    Distinct(listing) && forall x :: x in listing <==> x in names
  }

  /** The process-wide file system that the builder reads and changes in place. */
  class FileSystem {
    var files: map<Path, Content>
    var dirs: set<Path>

    function View(): Fs
      reads this
    {
      Fs(files, dirs)
    }

    constructor (initial: Fs)
      ensures View() == initial
    {
      files, dirs := initial.files, initial.dirs;
    }

    /** `os.path.exists(p)`. */
    function PathExists(p: Path): bool
      reads this
    {
      Exists(View(), p)
    }

    /** `shutil.copy(src, dst)`; on failure the file system is left alone. */
    method CopyFile(src: Path, dst: Path) returns (err: Option<FsError>)
      modifies this
      ensures err.None? <==> Copy(old(View()), src, dst).Ok?
      ensures err.Some? ==> Copy(old(View()), src, dst) == Err(err.value) && View() == old(View())
      ensures err.None? ==> View() == Copy(old(View()), src, dst).value
    {
      match Copy(View(), src, dst)
      case Ok(after) =>
        files, dirs := after.files, after.dirs;
        err := None;
      case Err(e) =>
        err := Some(e);
    }

    /** `Path(p).mkdir(parents=True, exist_ok=True)`. */
    method MakeDirectories(p: Path) returns (err: Option<FsError>)
      modifies this
      ensures err.None? <==> MakeDirs(old(View()), p).Ok?
      ensures err.Some? ==> MakeDirs(old(View()), p) == Err(err.value) && View() == old(View())
      ensures err.None? ==> View() == MakeDirs(old(View()), p).value
    {
      match MakeDirs(View(), p)
      case Ok(after) =>
        files, dirs := after.files, after.dirs;
        err := None;
      case Err(e) =>
        err := Some(e);
    }

    /** `os.listdir(p)`: the names inside `p`, each once, in an order the call does not promise. */
    method ListDir(p: Path) returns (r: Result<seq<Segment>, FsError>)
      ensures r.Err? <==> ListDirError(View(), p).Some?
      ensures r.Err? ==> r.error == ListDirError(View(), p).value
      ensures r.Ok? ==> Enumerates(r.value, Entries(View(), p))
    {
      var err := ListDirError(View(), p);
      if err.Some? {
        return Err(err.value);
      }
      var remaining := Entries(View(), p);
      var listing: seq<Segment> := [];
      while remaining != {}
        invariant Distinct(listing)
        invariant forall x :: x in listing ==> x !in remaining
        invariant forall x :: x in listing || x in remaining <==> x in Entries(View(), p)
        decreases |remaining|
      {
        var x :| x in remaining;
        listing := listing + [x];
        remaining := remaining - {x};
      }
      r := Ok(listing);
    }
  }
}
