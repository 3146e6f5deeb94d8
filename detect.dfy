/** The pure decisions build.py takes before it issues any package command:
    which platform it runs on, whether the machine is a VMware guest, and
    which value each interactive prompt yields. */
module Detect {
  import opened Text

  datatype Os = Linux | MacOS | Unsupported

  /** The answer of `platform.system()`, lowered, tested for "linux" first and
      for "darwin" second (build.py:291-299). */
  function ClassifyOs(system: string): Os
  {
    var name := Lower(system);
    if Contains(name, "linux") then Linux
    else if Contains(name, "darwin") then MacOS
    else Unsupported
  }

  /** The classification in terms of where the marker occurs in the lowered name. */
  lemma ClassifyOsByOccurrence(system: string)
    ensures ClassifyOs(system) == Linux ==> exists i :: OccursAt(Lower(system), "linux", i)
    ensures (exists i :: OccursAt(Lower(system), "linux", i)) ==> ClassifyOs(system) == Linux
    ensures ClassifyOs(system) == MacOS <==>
      (!exists i :: OccursAt(Lower(system), "linux", i)) && (exists i :: OccursAt(Lower(system), "darwin", i))
    ensures ClassifyOs(system) == Unsupported <==>
      (!exists i :: OccursAt(Lower(system), "linux", i)) && (!exists i :: OccursAt(Lower(system), "darwin", i))
  {
    var name := Lower(system);
    ContainsIff(name, "linux");
    ContainsIff(name, "darwin");
    var hasLinux := Contains(name, "linux");
    var hasDarwin := Contains(name, "darwin");
    assert ClassifyOs(system) == if hasLinux then Linux else if hasDarwin then MacOS else Unsupported;
  }

  /** Letter case in the platform name never changes the verdict. */
  lemma ClassifyOsIgnoresCase(system: string, other: string)
    requires Lower(system) == Lower(other)
    ensures ClassifyOs(system) == ClassifyOs(other)
    ensures ClassifyOs(Lower(system)) == ClassifyOs(system)
  {
    LowerIdempotent(system);
  }

  /** A name carrying both markers is Linux: "linux" is tested first. */
  lemma LinuxWinsOverDarwin(system: string, i: int, j: int)
    requires OccursAt(Lower(system), "linux", i) && OccursAt(Lower(system), "darwin", j)
    ensures ClassifyOs(system) == Linux
  {
    ContainsIff(Lower(system), "linux");
  }

  /** Example: the answer `platform.system()` gives on Linux. */
  lemma ClassifyLinuxExample()
    ensures ClassifyOs("Linux") == Linux
  {
  }

  /** Example: the answer `platform.system()` gives on macOS. */
  lemma ClassifyDarwinExample()
    ensures ClassifyOs("Darwin") == MacOS
  {
  }

  /** Example: the answer `platform.system()` gives on Windows takes the exit branch. */
  lemma ClassifyWindowsExample()
    ensures ClassifyOs("Windows") == Unsupported
  {
    LowerWindows();
    WindowsHasNoMarker();
  }

  lemma LowerWindows()
    ensures Lower("Windows") == "windows"
  {
  }

  lemma WindowsHasNoMarker()
    ensures !Contains("windows", "linux") && !Contains("windows", "darwin")
  {
    var n := "windows";
    assert n[..5][0] != "linux"[0];
    assert n[1..][..5][0] != "linux"[0];
    assert n[2..][..5][0] != "linux"[0];
    ShorterNeverContains(n[3..], "linux");
    assert n[..6][0] != "darwin"[0];
    assert n[1..][..6][0] != "darwin"[0];
    ShorterNeverContains(n[2..], "darwin");
  }

  const VmwareMarker := "VMware"

  /** `re.match("VMware", manufacturer)`: an anchored, case-sensitive prefix
      test on the decoded `dmidecode` answer (build.py:288-289). */
  predicate IsVmware(manufacturer: string)
  {
    StartsWith(manufacturer, VmwareMarker)
  }

  /** The flag is set for every answer that begins with the marker, whatever
      follows it, and for no other answer. */
  lemma IsVmwareIff(manufacturer: string, rest: string)
    ensures IsVmware(VmwareMarker + rest)
    ensures IsVmware(manufacturer) ==> manufacturer == VmwareMarker + manufacturer[|VmwareMarker|..]
  {
    assert (VmwareMarker + rest)[..|VmwareMarker|] == VmwareMarker;
  }

  /** The match is case-sensitive and anchored at the start. */
  lemma IsVmwareStrict(rest: string)
    ensures !IsVmware("vmware" + rest)
    ensures !IsVmware("VMWARE" + rest)
    ensures !IsVmware(" " + VmwareMarker + rest)
    ensures !IsVmware("VMwar")
  {
    assert ("vmware" + rest)[0] == 'v';
    assert ("VMWARE" + rest)[1] == 'M' && ("VMWARE" + rest)[2] == 'W';
    assert (" " + VmwareMarker + rest)[0] == ' ';
  }

  const DefaultBoxType := "devbox"
  const DefaultEmail := "david.cheal@gmail.com"
  const DefaultName := "David Cheal"

  /** `input(prompt) or default`: an empty answer is falsy in Python and
      yields the default; any other answer is kept as typed. */
  function OrDefault(answer: string, default: string): (r: string)
    ensures answer == [] ==> r == default
    ensures answer != [] ==> r == answer
    ensures default != [] ==> r != []
  {
    if answer == [] then default else answer
  }

  /** Example: with the script's own defaults (build.py:22-24), none of the
      three prompts can yield an empty value. */
  lemma PromptsNeverEmpty(box: string, email: string, name: string)
    ensures OrDefault(box, DefaultBoxType) != []
    ensures OrDefault(email, DefaultEmail) != []
    ensures OrDefault(name, DefaultName) != []
  {
  }
}
