/** `linux_configure` (build.py:341-369): the configuration files and the
    identity commands, on the abstract file system. `home` is the user's home
    directory and `repo` the directory the script is started from. */
module Configure {
  import opened Shell
  import opened Files

  function TerminatorDir(home: Path): Path { home + [".config", "terminator"] }

  /** The copy target of build.py:345: a file inside a `config` directory that
      nothing creates. */
  function TerminatorTarget(home: Path): Path { TerminatorDir(home) + ["config", "terminator-config"] }

  function KnownHosts(home: Path): Path { home + [".ssh", "known_hosts"] }

  function Asset(repo: Path, name: string): Path { repo + ["assets", name] }

  function Dotfile(home: Path, name: string): Path { home + [name] }

  /** build.py:349; `{HOME}` is the home directory's text with a final "/". */
  function KeygenCommand(home: Path, email: string): string
  {
    "ssh-keygen -t rsa -N '' -f " + PathText(home) + "/.ssh/" + email + " <<<y"
  }

  function GitEmailCommand(email: string): string
  {
    "git config --global --replace-all user.email " + email
  }

  function GitNameCommand(name: string): string
  {
    "git config --global --replace-all user.name " + name
  }

  /** build.py:342-346: only when the terminator directory is missing, create
      it and copy the terminator asset below it. */
  function TerminatorStep(fs: FileSystem, home: Path, repo: Path): FsStep
  {
    if Exists(fs, TerminatorDir(home)) then FsStep(fs, None)
    else ThenCopy(MakeDir(fs, TerminatorDir(home)), Asset(repo, "terminator"), TerminatorTarget(home))
  }

  /** build.py:347-353: generate a key only when there is no known_hosts file;
      a failing ssh-keygen raises outside any `except`. */
  function KeygenStep(exit: Oracle, trace: seq<string>, fs: FileSystem, home: Path, email: string): Run
  {
    if KnownHosts(home) in fs.files then Run(trace, Returned)
    else
      var keygen := KeygenCommand(home, email);
      Run(trace + [keygen], if exit(trace, keygen) == 0 then Returned else Crashed(CalledProcessError(keygen)))
  }

  /** build.py:354-357, in source order: `.profile` to `.profile.old`, the
      bashrc asset to `.bashrc.old`, then the two assets over `.profile` and
      `.bashrc`. */
  function DotfileStep(fs: FileSystem, home: Path, repo: Path): FsStep
  {
    var profileOld := CopyFile(fs, Dotfile(home, ".profile"), Dotfile(home, ".profile.old"));
    var bashrcOld := ThenCopy(profileOld, Asset(repo, "bashrc"), Dotfile(home, ".bashrc.old"));
    var profile := ThenCopy(bashrcOld, Asset(repo, "profile"), Dotfile(home, ".profile"));
    ThenCopy(profile, Asset(repo, "bashrc"), Dotfile(home, ".bashrc"))
  }

  /** build.py:358-369: the two git identity commands, each fatal on failure. */
  function IdentityStep(exit: Oracle, trace: seq<string>, email: string, name: string): Run
  {
    var setEmail := GitEmailCommand(email);
    var t1 := trace + [setEmail];
    if exit(trace, setEmail) != 0 then Run(t1, Crashed(CalledProcessError(setEmail)))
    else
      var setName := GitNameCommand(name);
      Run(t1 + [setName], if exit(t1, setName) == 0 then Returned else Crashed(CalledProcessError(setName)))
  }

  function Configure(exit: Oracle, trace: seq<string>, fs: FileSystem, home: Path, repo: Path, email: string, name: string): Outcome
  {
    var terminal := TerminatorStep(fs, home, repo);
    if terminal.error.Some? then Outcome(trace, terminal.fs, Crashed(PathError(terminal.error.value)))
    else
      var keys := KeygenStep(exit, trace, terminal.fs, home, email);
      if keys.status != Returned then Outcome(keys.trace, terminal.fs, keys.status)
      else
        var dots := DotfileStep(terminal.fs, home, repo);
        if dots.error.Some? then Outcome(keys.trace, dots.fs, Crashed(PathError(dots.error.value)))
        else
          var identity := IdentityStep(exit, keys.trace, email, name);
          Outcome(identity.trace, dots.fs, identity.status)
  }

  /** On a well-formed file system without `~/.config/terminator`, the step
      dies in the terminator block: the `config` directory of the copy target
      cannot exist. No command is issued and no file is touched. When
      `~/.config` exists, the `os.mkdir` before the copy has succeeded, so the
      crashed run leaves `~/.config/terminator` behind and the next run skips
      the block. */
  lemma FreshTerminatorCrashes(exit: Oracle, trace: seq<string>, fs: FileSystem, home: Path, repo: Path, email: string, name: string)
    requires WellFormed(fs)
    requires !Exists(fs, TerminatorDir(home))
    ensures var r := Configure(exit, trace, fs, home, repo, email, name);
      && r.status.Crashed? && r.status.cause.PathError?
      && r.trace == trace
      && r.fs.files == fs.files
      && (Parent(TerminatorDir(home)) in fs.dirs ==>
            && r.fs.dirs == fs.dirs + {TerminatorDir(home)}
            && TerminatorStep(r.fs, home, repo) == FsStep(r.fs, None))
  {
    var dir := TerminatorDir(home);
    NoChildWithoutParent(fs, dir, "config");
    var made := MakeDir(fs, dir);
    if made.error == None {
      assert Parent(TerminatorTarget(home)) == dir + ["config"];
      assert dir + ["config"] != dir;
      assert CopyFile(made.fs, Asset(repo, "terminator"), TerminatorTarget(home)).error.Some?;
    }
  }

  /** Once `~/.config/terminator` exists, configuration returns on any host
      that has the dotfile sources, a known_hosts file, somewhere to put the
      backups and a git that accepts both identity commands; the trace then
      holds just the two git commands. This is the run after a terminator
      crash. */
  lemma ConfiguresOnceTerminatorExists(exit: Oracle, trace: seq<string>, fs: FileSystem, home: Path, repo: Path, email: string, name: string)
    requires WellFormed(fs)
    requires Exists(fs, TerminatorDir(home))
    requires KnownHosts(home) in fs.files
    requires home in fs.dirs
    requires Dotfile(home, ".profile") in fs.files
    requires Asset(repo, "bashrc") in fs.files && Asset(repo, "profile") in fs.files
    requires Dotfile(home, ".profile.old") !in fs.dirs && Dotfile(home, ".bashrc.old") !in fs.dirs
    requires Dotfile(home, ".bashrc") !in fs.dirs
    requires exit(trace, GitEmailCommand(email)) == 0
    requires exit(trace + [GitEmailCommand(email)], GitNameCommand(name)) == 0
    ensures var r := Configure(exit, trace, fs, home, repo, email, name);
      && r.status == Returned
      && r.trace == trace + [GitEmailCommand(email), GitNameCommand(name)]
  {
    var profile, profileOld := Dotfile(home, ".profile"), Dotfile(home, ".profile.old");
    var bashrc, bashrcOld := Dotfile(home, ".bashrc"), Dotfile(home, ".bashrc.old");
    var assetBashrc, assetProfile := Asset(repo, "bashrc"), Asset(repo, "profile");
    assert Parent(profileOld) == home && Parent(bashrcOld) == home;
    assert Parent(profile) == home && Parent(bashrc) == home;
    LastDiffers(profile, profileOld);
    LastDiffers(assetBashrc, profileOld);
    LastDiffers(assetProfile, profileOld);
    LastDiffers(assetBashrc, bashrcOld);
    LastDiffers(assetProfile, bashrcOld);
    LastDiffers(assetProfile, profile);
    LastDiffers(assetBashrc, bashrc);
    LastDiffers(assetBashrc, profile);
    var s1 := CopyFile(fs, profile, profileOld);
    assert s1.error == None;
    var s2 := CopyFile(s1.fs, assetBashrc, bashrcOld);
    assert s2.error == None;
    var s3 := CopyFile(s2.fs, assetProfile, profile);
    assert s3.error == None;
    assert CopyFile(s3.fs, assetBashrc, bashrc).error == None;
  }

  /** The terminator step writes no file other than its own target. */
  lemma TerminatorStepFrame(fs: FileSystem, home: Path, repo: Path, p: Path)
    requires p != [] && p[|p| - 1] != "terminator-config"
    ensures var s := TerminatorStep(fs, home, repo);
      (p in s.fs.files <==> p in fs.files) && (p in fs.files ==> s.fs.files[p] == fs.files[p])
  {
    LastDiffers(p, TerminatorTarget(home));
  }

  /** After a successful run, `.profile.old` holds the old `.profile`, while
      `.bashrc.old` holds the bashrc asset rather than the old `.bashrc`: the
      old `.bashrc` survives in neither file. `.profile` and `.bashrc` hold the
      assets. */
  lemma DotfilesAfterSuccess(exit: Oracle, trace: seq<string>, fs: FileSystem, home: Path, repo: Path, email: string, name: string)
    requires Configure(exit, trace, fs, home, repo, email, name).status == Returned
    ensures var r := Configure(exit, trace, fs, home, repo, email, name);
      && Dotfile(home, ".profile") in fs.files
      && Asset(repo, "bashrc") in fs.files && Asset(repo, "profile") in fs.files
      && Dotfile(home, ".profile.old") in r.fs.files && Dotfile(home, ".bashrc.old") in r.fs.files
      && Dotfile(home, ".profile") in r.fs.files && Dotfile(home, ".bashrc") in r.fs.files
      && r.fs.files[Dotfile(home, ".profile.old")] == fs.files[Dotfile(home, ".profile")]
      && r.fs.files[Dotfile(home, ".bashrc.old")] == fs.files[Asset(repo, "bashrc")]
      && r.fs.files[Dotfile(home, ".profile")] == fs.files[Asset(repo, "profile")]
      && r.fs.files[Dotfile(home, ".bashrc")] == fs.files[Asset(repo, "bashrc")]
      && r.fs.files[Dotfile(home, ".bashrc.old")] == r.fs.files[Dotfile(home, ".bashrc")]
  {
    var profile, profileOld := Dotfile(home, ".profile"), Dotfile(home, ".profile.old");
    var bashrc, bashrcOld := Dotfile(home, ".bashrc"), Dotfile(home, ".bashrc.old");
    var assetBashrc, assetProfile := Asset(repo, "bashrc"), Asset(repo, "profile");
    TerminatorStepFrame(fs, home, repo, profile);
    TerminatorStepFrame(fs, home, repo, assetBashrc);
    TerminatorStepFrame(fs, home, repo, assetProfile);
    LastDiffers(assetBashrc, profileOld);
    LastDiffers(assetProfile, profileOld);
    LastDiffers(assetProfile, bashrcOld);
    LastDiffers(assetBashrc, bashrcOld);
    LastDiffers(assetBashrc, profile);
    LastDiffers(profileOld, bashrcOld);
    LastDiffers(profileOld, profile);
    LastDiffers(profileOld, bashrc);
    LastDiffers(bashrcOld, profile);
    LastDiffers(bashrcOld, bashrc);
    LastDiffers(profile, bashrc);
  }

  /** After a successful run the trace holds, in order, ssh-keygen when there
      was no known_hosts file, then the git email and name commands. */
  lemma CommandsAfterSuccess(exit: Oracle, trace: seq<string>, fs: FileSystem, home: Path, repo: Path, email: string, name: string)
    requires Configure(exit, trace, fs, home, repo, email, name).status == Returned
    ensures Configure(exit, trace, fs, home, repo, email, name).trace ==
      trace + (if KnownHosts(home) in fs.files then [] else [KeygenCommand(home, email)])
            + [GitEmailCommand(email), GitNameCommand(name)]
  {
    TerminatorStepFrame(fs, home, repo, KnownHosts(home));
  }

  /** Whatever the host answers, the step only appends to the trace, issues at
      most three commands, and either returns or crashes (it never calls
      `sys.exit`). */
  lemma ConfigureShape(exit: Oracle, trace: seq<string>, fs: FileSystem, home: Path, repo: Path, email: string, name: string)
    ensures var r := Configure(exit, trace, fs, home, repo, email, name);
      && |trace| <= |r.trace| <= |trace| + 3
      && r.trace[..|trace|] == trace
      && (r.status == Returned || r.status.Crashed?)
  {
  }

  /** The step leaves a well-formed file system well-formed. */
  lemma ConfigureKeepsWellFormed(exit: Oracle, trace: seq<string>, fs: FileSystem, home: Path, repo: Path, email: string, name: string)
    requires WellFormed(fs)
    ensures WellFormed(Configure(exit, trace, fs, home, repo, email, name).fs)
  {
    var dir := TerminatorDir(home);
    var made := MakeDir(fs, dir);
    MakeDirKeepsWellFormed(fs, dir);
    CopyFileKeepsWellFormed(made.fs, Asset(repo, "terminator"), TerminatorTarget(home));
    var terminal := TerminatorStep(fs, home, repo);
    var f := terminal.fs;
    var s1 := CopyFile(f, Dotfile(home, ".profile"), Dotfile(home, ".profile.old"));
    CopyFileKeepsWellFormed(f, Dotfile(home, ".profile"), Dotfile(home, ".profile.old"));
    var s2 := ThenCopy(s1, Asset(repo, "bashrc"), Dotfile(home, ".bashrc.old"));
    CopyFileKeepsWellFormed(s1.fs, Asset(repo, "bashrc"), Dotfile(home, ".bashrc.old"));
    var s3 := ThenCopy(s2, Asset(repo, "profile"), Dotfile(home, ".profile"));
    CopyFileKeepsWellFormed(s2.fs, Asset(repo, "profile"), Dotfile(home, ".profile"));
    CopyFileKeepsWellFormed(s3.fs, Asset(repo, "bashrc"), Dotfile(home, ".bashrc"));
  }
}
