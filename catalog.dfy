/** The literal data of build.py: the preflight command list (build.py:30-46)
    and the two package catalogs (build.py:48-182 and build.py:184-283), in
    source order. The dev catalog lists GoLang twice. */
module Catalog {
  import opened Shell
  import opened Install

  /** The three lists one run works through, in the order they are used. */
  datatype Catalog = Catalog(preflight: seq<string>, base: seq<Package>, dev: seq<Package>)

  const LinuxCommands: seq<string> := [
    "sudo apt-get update",
    "wget -O - https://packages.microsoft.com/keys/microsoft.asc | gpg --dearmor -o microsoft.asc.gpg",
    "sudo mv microsoft.asc.gpg /etc/apt/trusted.gpg.d/",
    "wget https://packages.microsoft.com/config/ubuntu/20.04/prod.list",
    "sudo mv prod.list /etc/apt/sources.list.d/microsoft-prod.list",
    "curl -fsSL https://packages.openvpn.net/packages-repo.gpg | sudo tee /etc/apt/keyrings/openvpn.asc",
    "echo deb [signed-by=/etc/apt/keyrings/openvpn.asc] https://packages.openvpn.net/openvpn3/debian jammy main | sudo tee /etc/apt/sources.list.d/openvpn-packages.list",
    "sudo apt-get update",
    "sudo chown root:root /etc/apt/trusted.gpg.d/microsoft.asc.gpg",
    "sudo chown root:root /etc/apt/sources.list.d/microsoft-prod.list",
    "sudo apt-get remove thunderbird -y",
    "sudo apt-get remove --purge libreoffice* -y",
    "sudo apt-get upgrade -y",
    "sudo apt remove unattended-upgrades -y",
    "sudo apt-get autoremove -y"
  ]

  const LinuxBaseApps: seq<Package> := [
    Package("Curl", "curl", None, "apt", "curl"),
    Package("DMI Decode", "dmidecode", None, "apt", ""),
    Package("Firefox", "firefox", None, "apt", ""),
    Package("GPG", "gpg", None, "apt", ""),
    Package("JQ", "jq", None, "apt", ""),
    Package("Kompare", "kompare", None, "apt", ""),
    Package("K Rename", "krename", None, "apt", ""),
    Package("Krusader", "krusader", None, "apt", ""),
    Package("Libre Office Calc", "libreoffice-calc", None, "apt", ""),
    Package("Network Tools", "net-tools", None, "apt", ""),
    Package("P7 Zip", "p7zip-full", None, "apt", ""),
    Package("P7 RAR", "p7zip-rar", None, "apt", ""),
    Package("Python 3 PIP", "python3-pip", None, "apt", ""),
    Package("Qbittorrent", "qbittorrent", None, "apt", ""),
    Package("Rar", "rar", None, "apt", ""),
    Package("Terminator", "terminator", None, "apt", ""),
    Package("Trash CLI", "trash-cli", None, "apt", ""),
    Package("VLC Player", "vlc", None, "apt", ""),
    Package("FF Mpeg", "ffmpeg", None, "apt", "")
  ]

  const LinuxDevApps: seq<Package> := [
    Package(".Net Core Runtime", "aspnetcore-runtime-7.0", None, "apt", ""),
    Package(".Net Core SDK", "dotnet-sdk-7.0", None, "apt", ""),
    Package("Java JDK", "default-jdk", None, "apt", ""),
    Package("Java JRE", "default-jre", None, "apt", ""),
    Package("FileZilla", "filezilla", None, "apt", ""),
    Package("GoLang", "golang-go", None, "apt", ""),
    Package("GoLang", "golang-go", None, "apt", ""),
    Package("NGINX", "nginx", None, "apt", ""),
    Package("NMap", "nmap", None, "apt", ""),
    Package("Open VPN", "openvpn3", None, "apt", ""),
    Package("PHP FPM", "php-fpm", None, "apt", ""),
    Package("Ruby", "ruby-full", None, "apt", ""),
    Package("Postman", "postman", None, "snap", ""),
    Package("VSCode", "--classic code", None, "snap", "")
  ]

  /** What the script runs: build.py:377-380. */
  const Script := Catalog(LinuxCommands, LinuxBaseApps, LinuxDevApps)

  /** Every base package is installed with apt, so the base phase never
      reaches the snap branch. */
  lemma BaseAppsAreApt()
    ensures forall i :: 0 <= i < |LinuxBaseApps| ==> LinuxBaseApps[i].installer == "apt"
  {
  }

  /** In the dev catalog exactly the last two entries, Postman and VSCode, take
      the snap branch; the GoLang entry appears twice in a row. */
  lemma DevAppsInstallers()
    ensures |LinuxDevApps| == 14
    ensures forall i :: 0 <= i < |LinuxDevApps| ==> (LinuxDevApps[i].installer == "apt" <==> i < 12)
    ensures LinuxDevApps[5] == LinuxDevApps[6] && LinuxDevApps[5].packageName == "golang-go"
  {
  }
}
