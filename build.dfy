/** The script as a whole (build.py:285-299 and build.py:372-380): query the
    manufacturer, classify the platform, read the three prompts, then run
    preflight, configuration, the base catalog and the dev catalog, each only
    if everything before it returned. `Host` is the imperative form over a
    host whose state is the command trace and the file system. */
module Build {
  import opened Shell
  import opened Files
  import opened Detect
  import Preflight
  import Install
  import Configure
  import Catalog

  /** build.py:286, run through `check_output` before anything else. */
  const ManufacturerQuery := "sudo dmidecode -s system-manufacturer"

  /** What the operator types at the three prompts (build.py:373-375). */
  datatype Answers = Answers(boxType: string, email: string, name: string)

  /** The end of a run: every command issued, the file system, the VMware
      flag and how the process ended. */
  datatype Final = Final(trace: seq<string>, fs: FileSystem, vmware: bool, status: Status)

  /** The four calls at the end of the script (build.py:377-380), each made
      only if the one before it returned. */
  function Phases(exit: Oracle, trace: seq<string>, fs: FileSystem, home: Path, repo: Path,
                     email: string, name: string, catalog: Catalog.Catalog): Outcome
  {
    var pre := Preflight.RunAll(exit, trace, catalog.preflight);
    if pre.status != Returned then Outcome(pre.trace, fs, pre.status)
    else
      var cfg := Configure.Configure(exit, pre.trace, fs, home, repo, email, name);
      if cfg.status != Returned then cfg
      else
        var base := Install.InstallAll(exit, cfg.trace, catalog.base);
        if base.status != Returned then Outcome(base.trace, cfg.fs, base.status)
        else
          var dev := Install.InstallAll(exit, base.trace, catalog.dev);
          Outcome(dev.trace, cfg.fs, dev.status)
  }

  /** One run of build.py from an empty trace. The detected platform is not
      consulted after the check: macOS runs the Linux pipeline. */
  function Bootstrap(exit: Oracle, output: Reader, fs: FileSystem, system: string, answers: Answers,
                     home: Path, repo: Path, catalog: Catalog.Catalog): Final
  {
    var queried := [ManufacturerQuery];
    if exit([], ManufacturerQuery) != 0 then
      Final(queried, fs, false, Crashed(CalledProcessError(ManufacturerQuery)))
    else
      var vmware := IsVmware(output([], ManufacturerQuery));
      if ClassifyOs(system) == Unsupported then Final(queried, fs, vmware, Exited(1))
      else
        var r := Phases(exit, queried, fs, home, repo,
                   OrDefault(answers.email, DefaultEmail), OrDefault(answers.name, DefaultName), catalog);
        Final(r.trace, r.fs, vmware, r.status)
  }

  /** The phases run in the order preflight, configure, base, dev; each starts
      where the previous one's trace ends, and the first phase that does not
      return is the last to issue a command. */
  lemma PhaseOrder(exit: Oracle, trace: seq<string>, fs: FileSystem, home: Path, repo: Path,
                   email: string, name: string, catalog: Catalog.Catalog)
    ensures
      var r := Phases(exit, trace, fs, home, repo, email, name, catalog);
      var pre := Preflight.RunAll(exit, trace, catalog.preflight);
      var cfg := Configure.Configure(exit, pre.trace, fs, home, repo, email, name);
      var base := Install.InstallAll(exit, cfg.trace, catalog.base);
      var dev := Install.InstallAll(exit, base.trace, catalog.dev);
      && |trace| <= |pre.trace| <= |r.trace| && pre.trace[..|trace|] == trace && r.trace[..|pre.trace|] == pre.trace
      && (pre.status != Returned ==> r.trace == pre.trace && r.status == Exited(1))
      && (pre.status == Returned ==>
            && |pre.trace| <= |cfg.trace| <= |r.trace|
            && r.trace[..|cfg.trace|] == cfg.trace && cfg.trace[..|pre.trace|] == pre.trace)
      && (pre.status == Returned && cfg.status != Returned ==> r.trace == cfg.trace && r.status.Crashed?)
      && (pre.status == Returned && cfg.status == Returned ==>
            && |cfg.trace| <= |base.trace| <= |r.trace|
            && r.trace[..|base.trace|] == base.trace && base.trace[..|cfg.trace|] == cfg.trace)
      && (pre.status == Returned && cfg.status == Returned && base.status != Returned ==>
            r.trace == base.trace && Fatal(r.status))
      && (pre.status == Returned && cfg.status == Returned && base.status == Returned ==>
            && r.trace == dev.trace && |base.trace| <= |dev.trace|
            && dev.trace[..|base.trace|] == base.trace && r.status == dev.status)
      && (r.status == Returned || Fatal(r.status))
  {
    var pre := Preflight.RunAll(exit, trace, catalog.preflight);
    Preflight.TraceIsPrefix(exit, trace, catalog.preflight);
    assert pre.trace[..|trace|] == trace;
    if pre.status == Returned {
      var cfg := Configure.Configure(exit, pre.trace, fs, home, repo, email, name);
      Configure.ConfigureShape(exit, pre.trace, fs, home, repo, email, name);
      if cfg.status == Returned {
        var base := Install.InstallAll(exit, cfg.trace, catalog.base);
        Install.InstallAllShape(exit, cfg.trace, catalog.base);
        if base.status == Returned {
          var dev := Install.InstallAll(exit, base.trace, catalog.dev);
          Install.InstallAllShape(exit, base.trace, catalog.dev);
          assert dev.trace[..|pre.trace|] == dev.trace[..|cfg.trace|][..|pre.trace|];
          assert dev.trace[..|cfg.trace|] == dev.trace[..|base.trace|][..|cfg.trace|];
        } else {
          assert base.trace[..|pre.trace|] == base.trace[..|cfg.trace|][..|pre.trace|];
        }
      }
    }
  }

  /** The phases only append to the trace they start from. */
  lemma PhasesExtend(exit: Oracle, trace: seq<string>, fs: FileSystem, home: Path, repo: Path,
                     email: string, name: string, catalog: Catalog.Catalog)
    ensures var r := Phases(exit, trace, fs, home, repo, email, name, catalog);
      |trace| <= |r.trace| && r.trace[..|trace|] == trace
  {
    PhaseOrder(exit, trace, fs, home, repo, email, name, catalog);
    var r := Phases(exit, trace, fs, home, repo, email, name, catalog);
    var pre := Preflight.RunAll(exit, trace, catalog.preflight);
    assert r.trace[..|trace|] == r.trace[..|pre.trace|][..|trace|];
  }

  /** The manufacturer query is the first command of every run; when it fails
      the run dies at once (no downgrade to "not VMware"); otherwise the flag
      is the VMware test of its output. */
  lemma ManufacturerQueryFirst(exit: Oracle, output: Reader, fs: FileSystem, system: string, answers: Answers,
                               home: Path, repo: Path, catalog: Catalog.Catalog)
    ensures var r := Bootstrap(exit, output, fs, system, answers, home, repo, catalog);
      && r.trace != [] && r.trace[0] == ManufacturerQuery
      && (exit([], ManufacturerQuery) != 0 ==>
            r == Final([ManufacturerQuery], fs, false, Crashed(CalledProcessError(ManufacturerQuery))))
      && (exit([], ManufacturerQuery) == 0 ==> r.vmware == IsVmware(output([], ManufacturerQuery)))
  {
    var r := Bootstrap(exit, output, fs, system, answers, home, repo, catalog);
    var queried := [ManufacturerQuery];
    if exit([], ManufacturerQuery) == 0 && ClassifyOs(system) != Unsupported {
      PhasesExtend(exit, queried, fs, home, repo,
        OrDefault(answers.email, DefaultEmail), OrDefault(answers.name, DefaultName), catalog);
      assert r.trace[..1][0] == r.trace[0];
    }
  }

  /** The process exit status is 0 exactly when the run reaches the end of the
      script, and 1 otherwise. */
  lemma ExitCodeMeaning(exit: Oracle, output: Reader, fs: FileSystem, system: string, answers: Answers,
                        home: Path, repo: Path, catalog: Catalog.Catalog)
    ensures var r := Bootstrap(exit, output, fs, system, answers, home, repo, catalog);
      && (ExitCode(r.status) == 0 <==> r.status == Returned)
      && (ExitCode(r.status) == 0 || ExitCode(r.status) == 1)
  {
    var r := Bootstrap(exit, output, fs, system, answers, home, repo, catalog);
    if exit([], ManufacturerQuery) == 0 && ClassifyOs(system) != Unsupported {
      PhaseOrder(exit, [ManufacturerQuery], fs, home, repo,
        OrDefault(answers.email, DefaultEmail), OrDefault(answers.name, DefaultName), catalog);
    }
    ExitCodeOfStep(r.status);
  }

  /** On an unrecognised platform the run exits with status 1 right after the
      manufacturer query: no preflight, configuration or package command runs. */
  lemma UnsupportedOsStops(exit: Oracle, output: Reader, fs: FileSystem, system: string, answers: Answers,
                           home: Path, repo: Path, catalog: Catalog.Catalog)
    requires exit([], ManufacturerQuery) == 0
    requires ClassifyOs(system) == Unsupported
    ensures var r := Bootstrap(exit, output, fs, system, answers, home, repo, catalog);
      r.trace == [ManufacturerQuery] && r.status == Exited(1) && ExitCode(r.status) == 1 && r.fs == fs
  {
  }

  /** There is no platform guard: every recognised platform gets the same run. */
  lemma NoOsGuard(exit: Oracle, output: Reader, fs: FileSystem, linux: string, other: string, answers: Answers,
                  home: Path, repo: Path, catalog: Catalog.Catalog)
    requires ClassifyOs(linux) == Linux && ClassifyOs(other) != Unsupported
    ensures Bootstrap(exit, output, fs, linux, answers, home, repo, catalog)
         == Bootstrap(exit, output, fs, other, answers, home, repo, catalog)
  {
  }

  /** The box-type prompt is read and never used. */
  lemma BoxTypeUnused(exit: Oracle, output: Reader, fs: FileSystem, system: string, answers: Answers, box: string,
                      home: Path, repo: Path, catalog: Catalog.Catalog)
    ensures Bootstrap(exit, output, fs, system, answers, home, repo, catalog)
         == Bootstrap(exit, output, fs, system, answers.(boxType := box), home, repo, catalog)
  {
  }

  /** When preflight command `k` is the first to fail, the run ends with exit
      status 1 right after it: the later preflight commands, the configuration
      and both catalogs issue nothing, and no file changes. */
  lemma PreflightFailureStopsRun(exit: Oracle, output: Reader, fs: FileSystem, system: string, answers: Answers,
                                 home: Path, repo: Path, catalog: Catalog.Catalog, k: nat)
    requires exit([], ManufacturerQuery) == 0 && ClassifyOs(system) != Unsupported
    requires k < |catalog.preflight|
    requires Preflight.AllSucceed(exit, [ManufacturerQuery], catalog.preflight[..k])
    requires exit([ManufacturerQuery] + catalog.preflight[..k], catalog.preflight[k]) != 0
    ensures var r := Bootstrap(exit, output, fs, system, answers, home, repo, catalog);
      r.trace == [ManufacturerQuery] + catalog.preflight[..k + 1] && r.status == Exited(1) && r.fs == fs
  {
    Preflight.StopsAtFirstFailure(exit, [ManufacturerQuery], catalog.preflight, k);
  }

  /** On a well-formed host without `~/.config/terminator`, a run whose
      preflight succeeds dies in the configuration step: the trace ends with
      the preflight list, so that run probes and installs no package. When
      `~/.config` exists, the run leaves `~/.config/terminator` behind, so the
      next run gets past the block. */
  lemma FirstRunNeverInstalls(exit: Oracle, output: Reader, fs: FileSystem, system: string, answers: Answers,
                               home: Path, repo: Path, catalog: Catalog.Catalog)
    requires exit([], ManufacturerQuery) == 0 && ClassifyOs(system) != Unsupported
    requires Preflight.AllSucceed(exit, [ManufacturerQuery], catalog.preflight)
    requires WellFormed(fs) && !Exists(fs, Configure.TerminatorDir(home))
    ensures var r := Bootstrap(exit, output, fs, system, answers, home, repo, catalog);
      && r.trace == [ManufacturerQuery] + catalog.preflight
      && r.status.Crashed? && ExitCode(r.status) == 1
      && r.fs.files == fs.files
      && (Parent(Configure.TerminatorDir(home)) in fs.dirs ==> Configure.TerminatorDir(home) in r.fs.dirs)
  {
    var queried := [ManufacturerQuery];
    Preflight.CompletesIffAllSucceed(exit, queried, catalog.preflight);
    Configure.FreshTerminatorCrashes(exit, queried + catalog.preflight, fs, home, repo,
      OrDefault(answers.email, DefaultEmail), OrDefault(answers.name, DefaultName));
  }

  /** A run that reaches the end issued the whole preflight list first, every
      preflight command succeeded, and the git identity was set from the
      prompt answers, or from the defaults where the answers were empty. */
  lemma SuccessfulRun(exit: Oracle, output: Reader, fs: FileSystem, system: string, answers: Answers,
                      home: Path, repo: Path, catalog: Catalog.Catalog)
    requires Bootstrap(exit, output, fs, system, answers, home, repo, catalog).status == Returned
    ensures var r := Bootstrap(exit, output, fs, system, answers, home, repo, catalog);
      && ClassifyOs(system) != Unsupported
      && Preflight.AllSucceed(exit, [ManufacturerQuery], catalog.preflight)
      && 1 + |catalog.preflight| <= |r.trace|
      && r.trace[..1 + |catalog.preflight|] == [ManufacturerQuery] + catalog.preflight
      && Configure.GitEmailCommand(OrDefault(answers.email, DefaultEmail)) in r.trace
      && Configure.GitNameCommand(OrDefault(answers.name, DefaultName)) in r.trace
  {
    var r := Bootstrap(exit, output, fs, system, answers, home, repo, catalog);
    var email, name := OrDefault(answers.email, DefaultEmail), OrDefault(answers.name, DefaultName);
    var queried := [ManufacturerQuery];
    PhaseOrder(exit, queried, fs, home, repo, email, name, catalog);
    Preflight.CompletesIffAllSucceed(exit, queried, catalog.preflight);
    var pre := Preflight.RunAll(exit, queried, catalog.preflight);
    var cfg := Configure.Configure(exit, pre.trace, fs, home, repo, email, name);
    Configure.CommandsAfterSuccess(exit, pre.trace, fs, home, repo, email, name);
    var n := |cfg.trace|;
    assert cfg.trace[n - 2] == Configure.GitEmailCommand(email);
    assert cfg.trace[n - 1] == Configure.GitNameCommand(name);
    assert r.trace[..n][n - 2] == r.trace[n - 2];
    assert r.trace[..n][n - 1] == r.trace[n - 1];
  }

  /** Re-running on a provisioned host: when preflight and configuration
      succeed and every package of both catalogs is present, the two catalog
      phases issue only their probes and the run reaches the end. */
  lemma RerunOnProvisionedHost(exit: Oracle, output: Reader, fs: FileSystem, system: string, answers: Answers,
                               home: Path, repo: Path, catalog: Catalog.Catalog)
    requires exit([], ManufacturerQuery) == 0 && ClassifyOs(system) != Unsupported
    requires Preflight.AllSucceed(exit, [ManufacturerQuery], catalog.preflight)
    requires
      var cfg := Configure.Configure(exit, [ManufacturerQuery] + catalog.preflight, fs, home, repo,
                   OrDefault(answers.email, DefaultEmail), OrDefault(answers.name, DefaultName));
      && cfg.status == Returned
      && Install.AllPresent(exit, cfg.trace, catalog.base)
      && Install.AllPresent(exit, cfg.trace + Install.Probes(catalog.base), catalog.dev)
    ensures
      var cfg := Configure.Configure(exit, [ManufacturerQuery] + catalog.preflight, fs, home, repo,
                   OrDefault(answers.email, DefaultEmail), OrDefault(answers.name, DefaultName));
      var r := Bootstrap(exit, output, fs, system, answers, home, repo, catalog);
      && r.trace == cfg.trace + Install.Probes(catalog.base) + Install.Probes(catalog.dev)
      && r.status == Returned
  {
    var queried := [ManufacturerQuery];
    Preflight.CompletesIffAllSucceed(exit, queried, catalog.preflight);
    var cfg := Configure.Configure(exit, queried + catalog.preflight, fs, home, repo,
                 OrDefault(answers.email, DefaultEmail), OrDefault(answers.name, DefaultName));
    Install.AllPresentOnlyProbes(exit, cfg.trace, catalog.base);
    Install.AllPresentOnlyProbes(exit, cfg.trace + Install.Probes(catalog.base), catalog.dev);
  }

  /** The host the script runs against. */
  class Host {
    const exit: Oracle
    const output: Reader
    var trace: seq<string>
    var fs: FileSystem

    constructor (exit: Oracle, output: Reader, fs: FileSystem)
      ensures this.exit == exit && this.output == output && this.fs == fs && trace == []
    {
      this.exit := exit;
      this.output := output;
      this.fs := fs;
      trace := [];
    }

    /** `subprocess.call` or `check_call` with `shell=True`: issue one command
        and wait for its exit status. */
    method Call(command: string) returns (code: int)
      modifies this`trace
      ensures trace == old(trace) + [command] && code == exit(old(trace), command)
    {
      code := exit(trace, command);
      trace := trace + [command];
    }

    /** `subprocess.check_output` with `shell=True`. */
    method CheckOutput(command: string) returns (code: int, out: string)
      modifies this`trace
      ensures trace == old(trace) + [command]
      ensures code == exit(old(trace), command) && out == output(old(trace), command)
    {
      code, out := exit(trace, command), output(trace, command);
      trace := trace + [command];
    }

    /** `os.mkdir` */
    method MakeDir(p: Path) returns (error: Option<Path>)
      modifies this`fs
      ensures FsStep(fs, error) == Files.MakeDir(old(fs), p)
    {
      if p == [] || p in fs.files || p in fs.dirs || Parent(p) !in fs.dirs {
        error := Some(p);
      } else {
        fs := fs.(dirs := fs.dirs + {p});
        error := None;
      }
    }

    /** `shutil.copyfile` */
    method CopyFile(src: Path, dst: Path) returns (error: Option<Path>)
      modifies this`fs
      ensures FsStep(fs, error) == Files.CopyFile(old(fs), src, dst)
    {
      if src !in fs.files {
        error := Some(src);
      } else if dst == [] || Parent(dst) !in fs.dirs || dst in fs.dirs || src == dst {
        error := Some(dst);
      } else {
        fs := fs.(files := fs.files[dst := fs.files[src]]);
        error := None;
      }
    }

    /** `linux_commands` (build.py:302-311). */
    method LinuxCommands(commands: seq<string>) returns (status: Status)
      modifies this`trace
      ensures Run(trace, status) == Preflight.RunAll(exit, old(trace), commands)
    {
      for i := 0 to |commands|
        invariant Preflight.RunAll(exit, old(trace), commands) == Preflight.RunAll(exit, trace, commands[i..])
      {
        assert commands[i..][0] == commands[i] && commands[i..][1..] == commands[i + 1..];
        var code := Call(commands[i]);
        if code != 0 {
          return Exited(1);
        }
      }
      assert commands[|commands|..] == [];
      status := Returned;
    }

    /** `install_linux_packages` (build.py:314-338). */
    method InstallLinuxPackages(packages: seq<Install.Package>) returns (status: Status)
      modifies this`trace
      ensures Run(trace, status) == Install.InstallAll(exit, old(trace), packages)
    {
      for i := 0 to |packages|
        invariant Install.InstallAll(exit, old(trace), packages) == Install.InstallAll(exit, trace, packages[i..])
      {
        assert packages[i..][0] == packages[i] && packages[i..][1..] == packages[i + 1..];
        var app := packages[i];
        var installed := false;
        var code := Call(Install.ProbeCommand(app));
        if code == 0 {
          installed := true;
        }
        if !installed {
          if app.installer == "apt" {
            code := Call(Install.AptCommand(app));
            if code != 0 {
              return Exited(1);
            }
          } else {
            trace := trace + [Install.SnapCall(app)];
            return Crashed(NotExecutable(Install.SnapCall(app)));
          }
        }
      }
      assert packages[|packages|..] == [];
      status := Returned;
    }

    /** `linux_configure` (build.py:341-369). */
    method LinuxConfigure(home: Path, repo: Path, email: string, name: string) returns (status: Status)
      modifies this`trace, this`fs
      ensures Outcome(trace, fs, status) == Configure.Configure(exit, old(trace), old(fs), home, repo, email, name)
    {
      var terminator := Configure.TerminatorDir(home);
      if !Exists(fs, terminator) {
        var error := MakeDir(terminator);
        if error.Some? {
          return Crashed(PathError(error.value));
        }
        error := CopyFile(Configure.Asset(repo, "terminator"), Configure.TerminatorTarget(home));
        if error.Some? {
          return Crashed(PathError(error.value));
        }
      }
      if Configure.KnownHosts(home) !in fs.files {
        var keygen := Configure.KeygenCommand(home, email);
        var code := Call(keygen);
        if code != 0 {
          return Crashed(CalledProcessError(keygen));
        }
      }
      var error := CopyFile(Configure.Dotfile(home, ".profile"), Configure.Dotfile(home, ".profile.old"));
      if error.Some? { return Crashed(PathError(error.value)); }
      error := CopyFile(Configure.Asset(repo, "bashrc"), Configure.Dotfile(home, ".bashrc.old"));
      if error.Some? { return Crashed(PathError(error.value)); }
      error := CopyFile(Configure.Asset(repo, "profile"), Configure.Dotfile(home, ".profile"));
      if error.Some? { return Crashed(PathError(error.value)); }
      error := CopyFile(Configure.Asset(repo, "bashrc"), Configure.Dotfile(home, ".bashrc"));
      if error.Some? { return Crashed(PathError(error.value)); }
      var setEmail := Configure.GitEmailCommand(email);
      var code := Call(setEmail);
      if code != 0 {
        return Crashed(CalledProcessError(setEmail));
      }
      var setName := Configure.GitNameCommand(name);
      code := Call(setName);
      if code != 0 {
        return Crashed(CalledProcessError(setName));
      }
      status := Returned;
    }

    /** build.py:377-380: the four phases, each only after the previous
        one returned. */
    method RunPhases(home: Path, repo: Path, email: string, name: string, catalog: Catalog.Catalog)
      returns (status: Status)
      modifies this`trace, this`fs
      ensures Outcome(trace, fs, status) == Phases(exit, old(trace), old(fs), home, repo, email, name, catalog)
    {
      status := LinuxCommands(catalog.preflight);
      if status != Returned { return; }
      status := LinuxConfigure(home, repo, email, name);
      if status != Returned { return; }
      status := InstallLinuxPackages(catalog.base);
      if status != Returned { return; }
      status := InstallLinuxPackages(catalog.dev);
    }

    /** The module-level statements of build.py, from the manufacturer query
        (build.py:286) to the last catalog (build.py:380); build.py runs it
        with `Catalog.Script`. */
    method Script(system: string, answers: Answers, home: Path, repo: Path, catalog: Catalog.Catalog)
      returns (vmware: bool, status: Status)
      requires trace == []
      modifies this`trace, this`fs
      ensures Final(trace, fs, vmware, status) == Bootstrap(exit, output, old(fs), system, answers, home, repo, catalog)
    {
      vmware := false;
      var code, manufacturer := CheckOutput(ManufacturerQuery);
      assert trace == [ManufacturerQuery] && fs == old(fs);
      if code != 0 {
        return vmware, Crashed(CalledProcessError(ManufacturerQuery));
      }
      if IsVmware(manufacturer) {
        vmware := true;
      }
      if ClassifyOs(system) == Unsupported {
        return vmware, Exited(1);
      }
      var boxType := OrDefault(answers.boxType, DefaultBoxType);
      var email := OrDefault(answers.email, DefaultEmail);
      var name := OrDefault(answers.name, DefaultName);
      status := RunPhases(home, repo, email, name, catalog);
    }
  }
}
