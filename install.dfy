/** `install_linux_packages` (build.py:314-338): probe each package with
    `which`, skip it when the probe exits 0, and otherwise install it with
    apt-get or, for any other installer, with the malformed snap call. */
module Install {
  import opened Shell

  /** One entry of a package catalog (one dictionary of build.py:48-283). */
  datatype Package = Package(
    name: string,              // display name, only printed
    packageName: string,       // what is probed and installed
    options: Option<string>,   // declared, never read
    installer: string,         // "apt", or anything else for snap
    which: string)             // declared probe, never read

  const AptPrefix := "sudo apt-get install -y "

  /** The presence probe: built from `package_name`, not from `which` (build.py:318). */
  function ProbeCommand(p: Package): string
  {
    "which " + p.packageName
  }

  /** The apt-get install command (build.py:323-324). */
  function AptCommand(p: Package): string
  {
    AptPrefix + p.packageName
  }

  /** The single string that build.py:330-332 hands to `check_call` without
      `shell=True`: Python takes all of it as the name of a program to start. */
  function SnapCall(p: Package): string
  {
    "snap install -y " + p.packageName + ", stdout=subprocess.DEVNULL, stderr=subprocess.STDOUT, shell=True"
  }

  /** One iteration of the loop. The snap string is recorded as the program
      the script tried to start; no such program exists, so the OSError that
      follows escapes the `except subprocess.CalledProcessError`. */
  function InstallOne(exit: Oracle, trace: seq<string>, p: Package): Run
  {
    var probe := ProbeCommand(p);
    var probed := trace + [probe];
    if exit(trace, probe) == 0 then Run(probed, Returned)
    else if p.installer == "apt" then
      var install := AptCommand(p);
      Run(probed + [install], if exit(probed, install) == 0 then Returned else Exited(1))
    else
      Run(probed + [SnapCall(p)], Crashed(NotExecutable(SnapCall(p))))
  }

  /** The whole loop: the first package that does not return ends it. */
  function InstallAll(exit: Oracle, trace: seq<string>, packages: seq<Package>): Run
    decreases |packages|
  {
    if packages == [] then Run(trace, Returned)
    else
      var first := InstallOne(exit, trace, packages[0]);
      if first.status != Returned then first else InstallAll(exit, first.trace, packages[1..])
  }

  /** A package that is already present costs exactly its probe and nothing else. */
  lemma PresentPackageOnlyProbed(exit: Oracle, trace: seq<string>, p: Package)
    requires exit(trace, "which " + p.packageName) == 0
    ensures InstallOne(exit, trace, p) == Run(trace + ["which " + p.packageName], Returned)
  {
  }

  /** An absent apt package costs its probe and exactly one install command,
      "sudo apt-get install -y " + package_name; a non-zero exit of that
      command makes the loop exit with status 1. */
  lemma AbsentAptPackage(exit: Oracle, trace: seq<string>, p: Package)
    requires exit(trace, "which " + p.packageName) != 0
    requires p.installer == "apt"
    ensures var r := InstallOne(exit, trace, p);
      && r.trace == trace + ["which " + p.packageName, "sudo apt-get install -y " + p.packageName]
      && (r.status == Returned <==> exit(trace + ["which " + p.packageName], "sudo apt-get install -y " + p.packageName) == 0)
      && (r.status != Returned ==> r.status == Exited(1))
  {
  }

  /** Every installer other than exactly "apt" takes the snap branch, which
      always crashes and never issues a well-formed `snap install`. */
  lemma OtherInstallerCrashes(exit: Oracle, trace: seq<string>, p: Package)
    requires exit(trace, "which " + p.packageName) != 0
    requires p.installer != "apt"
    ensures var r := InstallOne(exit, trace, p);
      && r.trace == trace + ["which " + p.packageName, SnapCall(p)]
      && r.status == Crashed(NotExecutable(SnapCall(p)))
      && SnapCall(p) != "snap install -y " + p.packageName
      && SnapCall(p)[..|"snap install -y " + p.packageName|] == "snap install -y " + p.packageName
  {
    assert |SnapCall(p)| > |"snap install -y " + p.packageName|;
  }

  /** The declared `which` field, the options and the display name have no
      effect on what the loop issues. */
  lemma ProbeIgnoresDeclaredFields(exit: Oracle, trace: seq<string>, p: Package, name: string, options: Option<string>, which: string)
    ensures InstallOne(exit, trace, p) == InstallOne(exit, trace, p.(name := name, options := options, which := which))
  {
  }

  /** Whatever the host answers, one package issues its probe and at most one
      further command, and ends normally, with exit status 1, or with a crash
      from the snap branch. */
  lemma InstallOneShape(exit: Oracle, trace: seq<string>, p: Package)
    ensures var r := InstallOne(exit, trace, p);
      && |trace| + 1 <= |r.trace| <= |trace| + 2
      && r.trace[..|trace| + 1] == trace + [ProbeCommand(p)]
      && (r.status == Returned || r.status == Exited(1) || r.status == Crashed(NotExecutable(SnapCall(p))))
      && (r.status.Crashed? ==> p.installer != "apt")
  {
    var r := InstallOne(exit, trace, p);
    assert r.trace[..|trace| + 1] == trace + [ProbeCommand(p)];
  }

  /** The loop over `a + b` is the loop over `a` followed, only if that returned,
      by the loop over `b`: after a failure no later package is probed. */
  lemma {:induction false} InstallAllSplit(exit: Oracle, trace: seq<string>, a: seq<Package>, b: seq<Package>)
    ensures var first := InstallAll(exit, trace, a);
      InstallAll(exit, trace, a + b) == if first.status != Returned then first else InstallAll(exit, first.trace, b)
    decreases |a|
  {
    if a == [] {
      assert a + b == b;
    } else {
      assert (a + b)[0] == a[0];
      assert (a + b)[1..] == a[1..] + b;
      var one := InstallOne(exit, trace, a[0]);
      if one.status == Returned {
        InstallAllSplit(exit, one.trace, a[1..], b);
      }
    }
  }

  /** When the packages before index `k` all return and package `k` does
      not, the loop ends with package `k`'s own commands and status: no later
      package of the list is probed or installed. */
  lemma FailureEndsList(exit: Oracle, trace: seq<string>, packages: seq<Package>, k: nat)
    requires k < |packages|
    requires InstallAll(exit, trace, packages[..k]).status == Returned
    requires InstallOne(exit, InstallAll(exit, trace, packages[..k]).trace, packages[k]).status != Returned
    ensures InstallAll(exit, trace, packages) == InstallOne(exit, InstallAll(exit, trace, packages[..k]).trace, packages[k])
  {
    var before := InstallAll(exit, trace, packages[..k]);
    InstallAllSplit(exit, trace, packages[..k], packages[k..]);
    assert packages[..k] + packages[k..] == packages;
    assert packages[k..][0] == packages[k];
  }

  /** The probe commands of a list of packages, in list order. */
  function Probes(packages: seq<Package>): (r: seq<string>)
    ensures |r| == |packages|
    ensures forall i :: 0 <= i < |packages| ==> r[i] == "which " + packages[i].packageName
  {
    seq(|packages|, i requires 0 <= i < |packages| => ProbeCommand(packages[i]))
  }

  /** Every probe exits 0 when it is issued after the probes before it. */
  ghost predicate AllPresent(exit: Oracle, trace: seq<string>, packages: seq<Package>)
  {
    forall i :: 0 <= i < |packages| ==> exit(trace + Probes(packages[..i]), ProbeCommand(packages[i])) == 0
  }

  lemma ProbesOfPrefix(packages: seq<Package>, i: nat)
    requires 0 <= i < |packages|
    ensures Probes(packages[..i + 1]) == [ProbeCommand(packages[0])] + Probes(packages[1..][..i])
  {
    var l, r := Probes(packages[..i + 1]), [ProbeCommand(packages[0])] + Probes(packages[1..][..i]);
    assert |l| == |r|;
    forall k | 0 <= k < |l| ensures l[k] == r[k] {
      if k > 0 { assert packages[..i + 1][k] == packages[1..][..i][k - 1]; }
    }
  }

  lemma AllPresentTail(exit: Oracle, trace: seq<string>, packages: seq<Package>)
    requires packages != [] && AllPresent(exit, trace, packages)
    ensures exit(trace, ProbeCommand(packages[0])) == 0
    ensures AllPresent(exit, trace + [ProbeCommand(packages[0])], packages[1..])
  {
    var t1 := trace + [ProbeCommand(packages[0])];
    assert Probes(packages[..0]) == [];
    assert trace + Probes(packages[..0]) == trace;
    assert exit(trace + Probes(packages[..0]), ProbeCommand(packages[0])) == 0;
    forall i | 0 <= i < |packages| - 1
      ensures exit(t1 + Probes(packages[1..][..i]), ProbeCommand(packages[1..][i])) == 0
    {
      ProbesOfPrefix(packages, i);
      assert exit(trace + Probes(packages[..i + 1]), ProbeCommand(packages[i + 1])) == 0;
      assert trace + Probes(packages[..i + 1]) == t1 + Probes(packages[1..][..i]);
    }
  }

  /** Idempotency: on a host where every package is present the loop issues the
      probes and nothing else, and returns normally. */
  lemma {:induction false} AllPresentOnlyProbes(exit: Oracle, trace: seq<string>, packages: seq<Package>)
    requires AllPresent(exit, trace, packages)
    ensures InstallAll(exit, trace, packages) == Run(trace + Probes(packages), Returned)
    decreases |packages|
  {
    if packages != [] {
      var t1 := trace + [ProbeCommand(packages[0])];
      AllPresentTail(exit, trace, packages);
      AllPresentOnlyProbes(exit, t1, packages[1..]);
      ProbesCons(trace, packages);
    }
  }

  lemma ProbesCons(trace: seq<string>, packages: seq<Package>)
    requires packages != []
    ensures trace + [ProbeCommand(packages[0])] + Probes(packages[1..]) == trace + Probes(packages)
  {
    var l, r := [ProbeCommand(packages[0])] + Probes(packages[1..]), Probes(packages);
    assert |l| == |r|;
    forall k | 0 <= k < |l| ensures l[k] == r[k] {
      if k > 0 { assert packages[1..][k - 1] == packages[k]; }
    }
    assert l == r;
  }

  /** Whatever the host answers, the loop only appends to the trace and ends
      normally, with exit status 1, or with a crash of the snap branch; a
      list of apt packages never crashes. */
  lemma {:induction false} InstallAllShape(exit: Oracle, trace: seq<string>, packages: seq<Package>)
    ensures var r := InstallAll(exit, trace, packages);
      && |trace| <= |r.trace|
      && r.trace[..|trace|] == trace
      && (r.status == Returned || Fatal(r.status))
      && ((forall i :: 0 <= i < |packages| ==> packages[i].installer == "apt") ==> !r.status.Crashed?)
    decreases |packages|
  {
    if packages != [] {
      var one := InstallOne(exit, trace, packages[0]);
      InstallOneShape(exit, trace, packages[0]);
      if one.status == Returned {
        InstallAllShape(exit, one.trace, packages[1..]);
        var r := InstallAll(exit, one.trace, packages[1..]);
        assert r.trace[..|trace|] == r.trace[..|one.trace|][..|trace|];
        assert one.trace[..|trace|] == one.trace[..|trace| + 1][..|trace|];
      } else {
        assert one.trace[..|trace|] == one.trace[..|trace| + 1][..|trace|];
      }
    }
  }
}
