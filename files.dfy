/** The part of the host file system that `linux_configure` touches, as a map
    from paths to file contents and a set of directories. A path is the list of
    its components below the root. */
module Files {
  import opened Shell

  type Path = seq<string>

  datatype FileSystem = FileSystem(files: map<Path, string>, dirs: set<Path>)

  function Parent(p: Path): Path
    requires p != []
  {
    p[..|p| - 1]
  }

  /** The text of a path without its final "/": each component preceded by
      "/", and "" for the root. Appending "/" + name gives build.py's
      `f"{HOME}name"`, also when HOME is "/". */
  function PathText(p: Path): string
  {
    if p == [] then "" else PathText(Parent(p)) + "/" + p[|p| - 1]
  }

  /** The root is a directory, nothing is both a file and a directory, and
      every file and directory other than the root sits in a directory. */
  ghost predicate WellFormed(fs: FileSystem)
  {
    && [] in fs.dirs
    && fs.files.Keys !! fs.dirs
    && (forall p :: p in fs.dirs && p != [] ==> Parent(p) in fs.dirs)
    && (forall p :: p in fs.files ==> p != [] && Parent(p) in fs.dirs)
  }

  /** `os.path.exists` */
  predicate Exists(fs: FileSystem, p: Path)
  {
    p in fs.files || p in fs.dirs
  }

  /** One file-system call: the file system afterwards and, when the call
      raised an OSError, the path it names. */
  datatype FsStep = FsStep(fs: FileSystem, error: Option<Path>)

  /** A step that issues commands and changes files: the trace after it, the
      file system after it and how it ended. */
  datatype Outcome = Outcome(trace: seq<string>, fs: FileSystem, status: Status)

  /** `os.mkdir(p)`: raises when `p` exists or its parent is not a directory. */
  function MakeDir(fs: FileSystem, p: Path): (r: FsStep)
    ensures r.error == None <==> p != [] && !Exists(fs, p) && Parent(p) in fs.dirs
    ensures r.error == None ==> r.fs == FileSystem(fs.files, fs.dirs + {p})
    ensures r.error != None ==> r.fs == fs && r.error == Some(p)
  {
    if p == [] || p in fs.files || p in fs.dirs || Parent(p) !in fs.dirs then FsStep(fs, Some(p))
    else FsStep(fs.(dirs := fs.dirs + {p}), None)
  }

  /** `shutil.copyfile(src, dst)`: raises when `src` is not a file, when `dst`
      is a directory or has no directory to live in, or when both are the same
      file; otherwise `dst` receives the content of `src`. */
  function CopyFile(fs: FileSystem, src: Path, dst: Path): (r: FsStep)
    ensures r.error == None <==>
      src in fs.files && dst != [] && Parent(dst) in fs.dirs && dst !in fs.dirs && src != dst
    ensures r.error == None ==> r.fs == FileSystem(fs.files[dst := fs.files[src]], fs.dirs)
    ensures r.error != None ==> r.fs == fs && (r.error == Some(src) || r.error == Some(dst))
  {
    if src !in fs.files then FsStep(fs, Some(src))
    else if dst == [] || Parent(dst) !in fs.dirs || dst in fs.dirs || src == dst then FsStep(fs, Some(dst))
    else FsStep(fs.(files := fs.files[dst := fs.files[src]]), None)
  }

  /** The next copy of a chain, run only if the calls before it succeeded. */
  function ThenCopy(step: FsStep, src: Path, dst: Path): FsStep
  {
    if step.error.Some? then step else CopyFile(step.fs, src, dst)
  }

  lemma MakeDirKeepsWellFormed(fs: FileSystem, p: Path)
    requires WellFormed(fs)
    ensures WellFormed(MakeDir(fs, p).fs)
  {
  }

  lemma CopyFileKeepsWellFormed(fs: FileSystem, src: Path, dst: Path)
    requires WellFormed(fs)
    ensures WellFormed(CopyFile(fs, src, dst).fs)
  {
  }

  /** In a well-formed file system a directory's child exists only if the
      directory does. */
  lemma NoChildWithoutParent(fs: FileSystem, dir: Path, child: string)
    requires WellFormed(fs) && !Exists(fs, dir)
    ensures dir + [child] !in fs.dirs && dir + [child] !in fs.files
  {
    assert Parent(dir + [child]) == dir;
  }

  /** Two paths whose last components differ are different paths. */
  lemma LastDiffers(a: Path, b: Path)
    requires a != [] && b != [] && a[|a| - 1] != b[|b| - 1]
    ensures a != b
  {
  }
}
