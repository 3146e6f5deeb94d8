# dev-box `build.py`: the decision layer of a workstation bootstrap script

`build.py` prepares an Ubuntu workstation. At import time it asks `dmidecode` for
the system manufacturer and sets a VMware flag, classifies the platform name, and
reads three prompts (box type, e-mail, name). It then runs four phases in a fixed
order:

1. `linux_commands`: a list of one-time preflight shell commands.
2. `linux_configure`: configuration files and the git identity.
3. `install_linux_packages` over the base catalog.
4. `install_linux_packages` over the dev catalog.

Every phase is fatal on failure. `sys.exit(1)` ends the process, or an uncaught
exception does.

This project models that layer against an abstract host:

- The host answers every shell command with an exit status. The answer is a
  function of the command and of the commands issued before it, so the second
  `sudo apt-get update`, or a `which` probe after an install, may answer
  differently.
- `check_output` also reads the command's output from the host.
- The file system that `linux_configure` touches is a map from paths to file
  contents plus a set of directories.
- Each run records every command it issues in a trace.

The model comes in two forms:

- Specification functions, one per phase and one for the whole run:
  `Preflight.RunAll`, `Install.InstallOne`, `Install.InstallAll`,
  `Configure.Configure`, `Build.Phases` and `Build.Bootstrap`.
- A class `Build.Host` whose methods issue the commands one at a time in loops, as
  the Python code does. Each method is proved to produce exactly the trace, file
  system and status of its function.

The lemmas state what the script promises about traces and outcomes.

Points where the model follows the code literally:

- The presence probe is `which <package_name>`. The declared `which` field is
  never read.
- An installer other than exactly `"apt"` takes the snap branch. That branch
  hands one malformed string to `check_call` without `shell=True`. Python treats
  the whole string as a program name, and the resulting OSError is not the
  `CalledProcessError` the `except` catches. The model records that string in the
  trace as the program the script tried to start, and ends the run with a crash.
- There is no other installer strategy, and no error for an unknown one: any
  installer string but `"apt"` takes the snap branch.
- The manufacturer query is the first command of every run, issued before the
  platform check. If it fails, the run crashes. It is not downgraded to "not
  VMware".
- The platform check applies lower-casing and a substring test, with `linux`
  tested before `darwin`. An unrecognised platform exits with status 1, right
  after the manufacturer query.
- Nothing checks the platform after that: macOS runs the Linux pipeline.
- `BOX_TYPE` is read and never used. The VMware flag is set and never read.
- `.profile` is copied to `.profile.old`, but `.bashrc.old` receives the bashrc
  asset, not the old `.bashrc`.
- The terminator asset is copied into a `config/` subdirectory that nothing
  creates. On a well-formed host without `~/.config/terminator`, the first run
  therefore crashes in configuration and probes no package. When `~/.config`
  exists, the `os.mkdir` before the copy has succeeded, so that run leaves
  `~/.config/terminator` behind. The next run skips the block and goes on to
  the dotfiles, the git identity and the packages.

Modules:

- `Shell`: the oracle types, statuses and exit codes.
- `Text`: lower-casing, prefix and substring tests.
- `Detect`: platform classification, the VMware test and prompt defaults.
- `Files`: the file system.
- `Preflight`: `linux_commands`.
- `Install`: `install_linux_packages`.
- `Configure`: `linux_configure`.
- `Catalog`: the literal command list and package catalogs, GoLang listed twice.
- `Build`: the whole run and the `Host` class.

## Model

| member | source | states |
|---|---|---|
| Detect.ClassifyOs | build.py:291-299 | computes the platform verdict: lower the name, test "linux", then "darwin", else unsupported; characterised by Detect.ClassifyOsByOccurrence, Detect.ClassifyOsIgnoresCase and Detect.LinuxWinsOverDarwin |
| Detect.IsVmware | build.py:288-289 | computes the VMware flag as an anchored, case-sensitive prefix test for "VMware"; characterised by Detect.IsVmwareIff and Detect.IsVmwareStrict |
| Text.Lower | build.py:291 | the lowered name has the same length, each character is the lowered original character, and no upper-case ASCII letter remains |
| Text.Contains | build.py:291-294 | computes Python's `in` on strings as a left-to-right scan for a prefix match; characterised by Text.ContainsIff |
| Text.ContainsIff | build.py:291-294 | the `in` test succeeds exactly when the marker occurs at some position of the name |
| Detect.ClassifyOsByOccurrence | build.py:291-299 | linux exactly when the lowered name contains "linux"; macos exactly when it does not but contains "darwin"; unsupported exactly when it contains neither |
| Detect.ClassifyOsIgnoresCase | build.py:291-294 | two names that lower to the same text get the same verdict, and lowering a name first changes nothing |
| Detect.LinuxWinsOverDarwin | build.py:291-296 | a name containing both markers is classified linux, because linux is tested first |
| Detect.ClassifyLinuxExample | build.py:291-293 | example: "Linux" is classified linux |
| Detect.ClassifyDarwinExample | build.py:294-296 | example: "Darwin" is classified macos |
| Detect.ClassifyWindowsExample | build.py:297-299 | example: "Windows" is unsupported |
| Detect.IsVmwareIff | build.py:288-289 | the flag holds for "VMware" followed by anything, and any answer that sets it begins with "VMware" |
| Detect.IsVmwareStrict | build.py:288 | the match is case-sensitive and anchored: "vmware…", "VMWARE…", " VMware…" and "VMwar" do not set the flag |
| Detect.OrDefault | build.py:373-375 | an empty answer yields the default; a non-empty answer is kept verbatim; the result is never empty when the default is not |
| Detect.PromptsNeverEmpty | build.py:22-24 | example: with the script's own defaults, none of the three prompts yields an empty value |
| Shell.ExitCode | build.py:297-299 | computes the process status: 0 for a normal end, the `sys.exit` argument, 1 for an uncaught exception; characterised by Shell.ExitCodeOfStep and Build.ExitCodeMeaning |
| Shell.ExitCodeOfStep | build.py:309-311 | for the statuses a step can end with, the exit code is 0 exactly when the step returned, and is otherwise 1 |
| Files.MakeDir | build.py:342-343 | `os.mkdir` succeeds exactly when the path is new and its parent is a directory, and then only adds the directory; otherwise nothing changes and the path is reported |
| Files.CopyFile | build.py:354-357 | `shutil.copyfile` succeeds exactly when the source is a file, the target's parent is a directory, the target is not a directory and the two differ; the target then holds the source's content and nothing else changes |
| Preflight.RunAll | build.py:302-311 | computes the commands `linux_commands` issues and how it ends: each command in order, stopping with exit 1 at the first non-zero status; characterised by Preflight.TraceIsPrefix, Preflight.ExitBlamesLast, Preflight.CompletesIffAllSucceed and Preflight.StopsAtFirstFailure, and run by Build.Host.LinuxCommands |
| Preflight.TraceIsPrefix | build.py:302-311 | for every host the trace grows by a prefix of the command list, in list order, and the step returns or exits with status 1 |
| Preflight.ExitBlamesLast | build.py:303-311 | when the step exits, it issued the first n commands for some n >= 1; command n-1 failed and every earlier one succeeded |
| Preflight.CompletesIffAllSucceed | build.py:302-311 | the step returns exactly when every command exits 0, and then the trace has issued the full list |
| Preflight.StopsAtFirstFailure | build.py:303-311 | if commands 0..k-1 succeed and command k fails, the trace ends right after command k and the status is exit 1 |
| Install.ProbeCommand | build.py:318 | computes the presence probe "which " + package_name; pinned down by Install.PresentPackageOnlyProbed and Install.ProbeIgnoresDeclaredFields |
| Install.AptCommand | build.py:323-324 | computes "sudo apt-get install -y " + package_name; pinned down by Install.AbsentAptPackage |
| Install.SnapCall | build.py:330-332 | computes the single malformed string the snap branch hands to `check_call`; Install.OtherInstallerCrashes shows it is not a clean snap install |
| Install.InstallOne | build.py:316-335 | computes one loop iteration: probe, then nothing, the apt install, or the snap crash; characterised by Install.PresentPackageOnlyProbed, Install.AbsentAptPackage, Install.OtherInstallerCrashes and Install.InstallOneShape |
| Install.InstallAll | build.py:314-338 | computes the whole loop, ended by the first package that does not return; characterised by Install.InstallAllSplit, Install.FailureEndsList, Install.AllPresentOnlyProbes and Install.InstallAllShape, and run by Build.Host.InstallLinuxPackages |
| Install.PresentPackageOnlyProbed | build.py:316-320 | a package whose probe `which <package_name>` exits 0 issues only that probe and is skipped |
| Install.AbsentAptPackage | build.py:320-328 | an absent apt package issues its probe, then exactly "sudo apt-get install -y " + package_name; install exit 0 continues, anything else exits 1 |
| Install.OtherInstallerCrashes | build.py:329-332 | any installer other than exactly "apt" issues the probe and then the malformed snap string, and crashes; that string is not a clean `snap install -y <name>` |
| Install.ProbeIgnoresDeclaredFields | build.py:318 | the `which` field, the options and the display name do not change what a package issues |
| Install.InstallOneShape | build.py:316-338 | for every host, a package issues its probe and at most one more command, and ends returned, exit 1, or crashed only when the installer is not "apt" |
| Install.InstallAllSplit | build.py:316-338 | the loop over a ++ b is the loop over a, followed by the loop over b only if a returned |
| Install.FailureEndsList | build.py:336-338 | when package k is the first that does not return, the loop ends with package k's own trace and status; no later package is probed |
| Install.AllPresentOnlyProbes | build.py:316-320 | on a host where every probe succeeds, the loop issues exactly the probes in list order and returns |
| Install.InstallAllShape | build.py:314-338 | for every host the loop only appends to the trace and returns, exits 1 or crashes; a list of apt packages never crashes |
| Catalog.BaseAppsAreApt | build.py:48-182 | every base catalog entry uses the apt installer |
| Catalog.DevAppsInstallers | build.py:184-283 | the dev catalog has 14 entries; exactly the last two (Postman, VSCode) are not apt; entries 5 and 6 are the same GoLang package |
| Configure.TerminatorTarget | build.py:344-346 | computes the copy target `~/.config/terminator/config/terminator-config`, whose `config/` parent nothing creates; used by Configure.FreshTerminatorCrashes |
| Configure.KeygenCommand | build.py:349 | computes the ssh-keygen command with the key file `~/.ssh/<email>` and the `<<<y` here-string; pinned down by Configure.CommandsAfterSuccess |
| Configure.GitEmailCommand | build.py:358-363 | computes "git config --global --replace-all user.email " + the e-mail, unquoted; pinned down by Configure.CommandsAfterSuccess and Build.SuccessfulRun |
| Configure.GitNameCommand | build.py:364-369 | computes "git config --global --replace-all user.name " + the name, unquoted; pinned down by Configure.CommandsAfterSuccess and Build.SuccessfulRun |
| Configure.TerminatorStep | build.py:342-346 | computes the terminator block: nothing when `~/.config/terminator` exists, otherwise mkdir and then the copy into `config/terminator-config`; used by Configure.FreshTerminatorCrashes |
| Configure.KeygenStep | build.py:347-353 | computes the ssh-keygen block: no command when known_hosts is a file, otherwise the keygen command, whose failure is an uncaught crash; used by Configure.CommandsAfterSuccess |
| Configure.DotfileStep | build.py:354-357 | computes the four copies in source order, stopping at the first failing one; characterised by Configure.DotfilesAfterSuccess |
| Configure.IdentityStep | build.py:358-369 | computes the git e-mail then git name commands, each an uncaught crash on failure; characterised by Configure.CommandsAfterSuccess |
| Configure.Configure | build.py:341-369 | computes the trace, file system and status of `linux_configure` from the four blocks in order; characterised by Configure.ConfigureShape, Configure.ConfigureKeepsWellFormed and the lemmas below, and run by Build.Host.LinuxConfigure |
| Configure.FreshTerminatorCrashes | build.py:342-346 | on a well-formed file system without `~/.config/terminator`, configuration crashes on a path error, issues no command and changes no file; when `~/.config` exists, the crash leaves `~/.config/terminator` as the one new directory, so the terminator block of the next run does nothing |
| Configure.ConfiguresOnceTerminatorExists | build.py:341-369 | once `~/.config/terminator` exists, on a well-formed host with known_hosts, `.profile`, both assets, a home directory, no directory in the way of a copy target and a git that accepts both commands, configuration returns and issues exactly the two git commands |
| Configure.DotfilesAfterSuccess | build.py:354-357 | after success, `.profile.old` holds the old `.profile`, `.bashrc.old` and `.bashrc` both hold the bashrc asset, and `.profile` holds the profile asset |
| Configure.CommandsAfterSuccess | build.py:347-369 | after success, the trace holds ssh-keygen (only when known_hosts was missing), then the git e-mail command, then the git name command |
| Configure.ConfigureShape | build.py:341-369 | configuration only appends at most three commands to the trace, and it either returns or crashes; it never exits |
| Configure.ConfigureKeepsWellFormed | build.py:341-369 | configuration leaves a well-formed file system well-formed |
| Build.Phases | build.py:377-380 | computes the four phase calls, each made only if the one before returned; characterised by Build.PhaseOrder and run by Build.Host.RunPhases |
| Build.Bootstrap | build.py:285-380 | computes a whole run from an empty trace: manufacturer query, platform check, prompts with defaults, then the phases; characterised by the Build lemmas below and run by Build.Host.Script |
| Build.PhaseOrder | build.py:377-380 | the phases run preflight, configure, base, dev, each starting where the previous trace ended; the first phase that does not return issues the last command, so a failed base list means no dev command; the run returns or fails fatally |
| Build.ManufacturerQueryFirst | build.py:286-289 | the manufacturer query is the first command of every run; if it fails, the run crashes with nothing else issued; otherwise the VMware flag is the prefix test of its output |
| Build.ExitCodeMeaning | build.py:286-380 | the process exit code is 0 exactly when the run reaches the end, and 1 otherwise |
| Build.UnsupportedOsStops | build.py:291-299 | an unrecognised platform exits with status 1 after only the manufacturer query, with the file system unchanged |
| Build.NoOsGuard | build.py:291-296 | any recognised platform, macOS included, gets exactly the run that Linux gets |
| Build.BoxTypeUnused | build.py:373 | the box-type answer has no effect on the run |
| Build.PreflightFailureStopsRun | build.py:302-311 | when preflight command k is the first to fail, the whole trace is the manufacturer query plus commands 0..k, the exit status is 1, and no file changes |
| Build.FirstRunNeverInstalls | build.py:342-346 | on a well-formed host without `~/.config/terminator`, a run whose preflight succeeds crashes with the trace ending at the preflight list, so that run probes no package; no file changes, and when `~/.config` exists the terminator directory is left behind for the next run |
| Build.SuccessfulRun | build.py:358-375 | a run that reaches the end recognised the platform and issued the full preflight list first, all of it succeeding; it issued the git e-mail and name commands built from the answers, or from the defaults where an answer was empty |
| Build.RerunOnProvisionedHost | build.py:316-320 | when preflight and configuration succeed and every package of both catalogs is present, the catalogs issue only their probes and the run reaches the end |
| Build.Host.Call | build.py:318 | issuing a command appends it to the trace and yields the host's exit status for it |
| Build.Host.CheckOutput | build.py:286 | the query is appended to the trace and yields the host's exit status and output |
| Build.Host.MakeDir | build.py:343 | the new file system and the error are those of `Files.MakeDir` |
| Build.Host.CopyFile | build.py:344-346 | the new file system and the error are those of `Files.CopyFile` |
| Build.Host.LinuxCommands | build.py:302-311 | the loop's trace and status equal `Preflight.RunAll` from the trace before the call |
| Build.Host.InstallLinuxPackages | build.py:314-338 | the loop, including its `installed` flag and early exits, yields the trace and status of `Install.InstallAll` |
| Build.Host.LinuxConfigure | build.py:341-369 | the trace, file system and status equal `Configure.Configure` from the state before the call |
| Build.Host.RunPhases | build.py:377-380 | the four calls yield the trace, file system and status of `Build.Phases` |
| Build.Host.Script | build.py:285-380 | the whole script from an empty trace yields the trace, file system, VMware flag and status of `Build.Bootstrap`; build.py runs it with `Catalog.Script` |

## Left out

- Process execution (`subprocess.call`, `check_call`, `check_output`), the output redirection and `dmidecode` itself are replaced by the host oracle. A command that never terminates cannot be expressed, because the oracle always answers.
- `printer` and the ANSI colour constants only produce output.
- `input()` is represented only by its answers. The prompt texts and an EOFError on closed input are not modelled.
- `platform.system()` and `os.path.expanduser` are host queries. The platform name, the home directory and the starting directory are parameters.
- Decoding of the `dmidecode` output as UTF-8 is not modelled: the output is a string already, so a UnicodeDecodeError cannot occur.
- Text.Lower: lowers only the ASCII letters A-Z, whereas Python's `str.lower` applies full Unicode case mapping.
- Commands do not change the modelled file system. ssh-keygen's key files and an installed package's binaries show up only through the oracle, which sees the command history.
- The file system has no permissions, symbolic links or other OSError causes beyond those `Files.MakeDir` and `Files.CopyFile` name.
- The shell's reading of a command is left to the host. Examples are the here-string `<<<y`, which `/bin/sh` may not support, and a name with a space passed unquoted to `git config`.
- The literal catalog contents are data only. No lemma depends on them except those in `Catalog`.
- `Build.Host.Script` takes the catalog as a parameter. build.py always passes `Catalog.Script`, and that constant holds the literal lists.
