/**
 * The node agent (internal/agent/agent.go): it brings a node in line with
 * its configuration document. It writes ConnMan's configuration and the
 * Wi-Fi service, joins the tailnet, writes the k3s environment file, and
 * starts k3s.
 *
 * ConnMan's files go under a root directory, which is `/` on a node. The
 * waits and the commands read the machine's scripted answers. A `Waiting`
 * result stands for an agent that would still be blocked.
 */
module Agent {
  import opened Errors
  import opened Text
  import opened OsConfig
  import opened Host
  import TS = Tailscale
  import Net = Network
  import Client

  const ConnManConfigDir: string := "/etc/connman"
  const ConnManServiceDir: string := "/var/lib/connman"
  const K3sEnvPath: string := "/etc/rancher/k3s/k3s.env"

  /** ConnMan's main configuration, the same on every node. */
  const MainConf: string :=
    "[General]\nNetworkInterfaceBlacklist=veth\nPreferredTechnologies=ethernet,wifi\n" +
    "FallbackNameservers=1.1.1.1\nFallbackTimeservers=pool.ntp.org\nAllowHostnameUpdates=false\n"

  /** ConnMan's Wi-Fi technology settings. */
  const WifiSettings: string := "[WiFi]\nEnable=true\nTethering=false\n"

  /** The ConnMan service that connects to the configured Wi-Fi network. */
  function WifiService(w: Wifi): string {
    "[service_wifi]" + "\n" + "Type=wifi" + "\n" + "Name=" + w.name + "\n" + "Passphrase=" + w.password + "\n"
  }

  lemma WifiServiceTerminated(w: Wifi)
    ensures WifiService(w) == Terminated(["[service_wifi]", "Type=wifi", "Name=" + w.name, "Passphrase=" + w.password])
  {
    var lines := ["[service_wifi]", "Type=wifi", "Name=" + w.name, "Passphrase=" + w.password];
    assert Terminated(lines[3..]) == lines[3] + "\n";
    assert Terminated(lines[2..]) == lines[2] + "\n" + lines[3] + "\n";
    assert Terminated(lines[1..]) == lines[1] + "\n" + lines[2] + "\n" + lines[3] + "\n";
  }

  /** The lines of the Wi-Fi service: the name and the passphrase appear exactly as configured, each on its own line. */
  lemma WifiServiceLines(w: Wifi)
    requires '\n' !in w.name && '\r' !in w.name
    requires '\n' !in w.password && '\r' !in w.password
    ensures ScanLines(WifiService(w)) == ["[service_wifi]", "Type=wifi", "Name=" + w.name, "Passphrase=" + w.password]
  {
    var lines := ["[service_wifi]", "Type=wifi", "Name=" + w.name, "Passphrase=" + w.password];
    WifiServiceTerminated(w);
    assert forall i :: 0 <= i < |lines| ==> '\n' !in lines[i];
    ScanTerminated(lines);
    assert forall i :: 0 <= i < |lines| ==> DropCR(lines[i]) == lines[i];
  }

  // ---------------------------------------------------------------------
  // Paths

  function ConnManConfigPath(root: string): string {
    Rooted(root, ConnManConfigDir)
  }

  function MainConfPath(root: string): string {
    JoinPath(ConnManConfigPath(root), "main.conf")
  }

  function ConnManServicePath(root: string): string {
    Rooted(root, ConnManServiceDir)
  }

  function SettingsPath(root: string): string {
    JoinPath(ConnManServicePath(root), "settings")
  }

  function WifiServicePath(root: string): string {
    JoinPath(ConnManServicePath(root), "cloud-config.config")
  }

  lemma RootedChild(root: string, dir: string, name: string)
    requires dir != [] && dir[|dir| - 1] != '/' && name != [] && '/' !in name
    ensures var child := JoinPath(Rooted(root, dir), name);
      && Parent(child) == Rooted(root, dir)
      && |child| > |Rooted(root, dir)|
      && child[|child| - 1] == name[|name| - 1]
  {
    var d := Rooted(root, dir);
    assert d[|d| - 1] == dir[|dir| - 1];
    assert TrimTrailingSlashes(d) == d;
    ParentOfChild(d, name);
  }

  lemma NoLongerAncestor(p: string, q: string)
    requires |q| > |p|
    ensures q !in Ancestors(p)
  {
  }

  /**
   * The files the agent writes are children of the directories it creates,
   * and no two of them, nor the k3s environment file, are the same path,
   * whatever the root.
   */
  lemma ConnManLayout(root: string)
    ensures Parent(MainConfPath(root)) == ConnManConfigPath(root)
    ensures Parent(SettingsPath(root)) == ConnManServicePath(root)
    ensures Parent(WifiServicePath(root)) == ConnManServicePath(root)
    ensures |MainConfPath(root)| > |ConnManConfigPath(root)|
    ensures |SettingsPath(root)| > |ConnManServicePath(root)| && |WifiServicePath(root)| > |ConnManServicePath(root)|
    ensures MainConfPath(root) != SettingsPath(root) && MainConfPath(root) != WifiServicePath(root)
    ensures SettingsPath(root) != WifiServicePath(root)
    ensures K3sEnvPath != MainConfPath(root) && K3sEnvPath != SettingsPath(root) && K3sEnvPath != WifiServicePath(root)
    ensures |ConnManServicePath(root)| > |ConnManConfigPath(root)| && MainConfPath(root) != ConnManServicePath(root)
  {
    RootedChild(root, ConnManConfigDir, "main.conf");
    RootedChild(root, ConnManServiceDir, "settings");
    RootedChild(root, ConnManServiceDir, "cloud-config.config");
    var service := ConnManServicePath(root);
    assert service[|service| - 1] == 'n';
  }

  lemma RootedAtSlash(p: string)
    ensures Rooted("/", p) == p
  {
    assert TrimTrailingSlashes("/") == "";
  }

  /** On a node the root is `/`, and the files are ConnMan's own. */
  lemma ConnManOnNode()
    ensures MainConfPath("/") == ConnManConfigDir + "/" + "main.conf"
    ensures SettingsPath("/") == ConnManServiceDir + "/" + "settings"
    ensures WifiServicePath("/") == ConnManServiceDir + "/" + "cloud-config.config"
  {
    RootedAtSlash(ConnManConfigDir);
    RootedAtSlash(ConnManServiceDir);
    assert ConnManConfigDir[|ConnManConfigDir| - 1] == 'n';
    assert TrimTrailingSlashes(ConnManConfigDir) == ConnManConfigDir;
    assert ConnManServiceDir[|ConnManServiceDir| - 1] == 'n';
    assert TrimTrailingSlashes(ConnManServiceDir) == ConnManServiceDir;
  }

  // ---------------------------------------------------------------------
  // Error contexts (the messages `fmt.Errorf` puts in front of a cause)

  function DirContext(dir: string): string {
    "failed to create directory " + Quote(dir)
  }

  function ConnManWriteContext(p: string): string {
    "unable to write ConnMan config " + Quote(p)
  }

  const JoinContext: string := "unable to connect to Tailscale"
  const AddressContext: string := "unable to get Tailscale IP"
  const K3sAddressContext: string := "failed while waiting for Tailscale IP"
  const K3sEnvContext: string := "failed to write k3s environment file " + K3sEnvPath

  function ReadContext(cfgPath: string): string {
    "unable to read config file " + Quote(cfgPath)
  }

  function ParseContext(cfgPath: string): string {
    "unable to parse config file " + Quote(cfgPath)
  }

  function ApplyContext(cfgPath: string): string {
    "unable to apply config file " + Quote(cfgPath)
  }

  // ---------------------------------------------------------------------
  // ConnMan and Wi-Fi

  /** The files and directories of a machine, as a value. */
  datatype Disk = Disk(files: map<string, FileData>, dirs: map<string, Attr>)

  /** The directory ConnMan's main configuration goes to can be made, and the file written. */
  predicate MainConfOk(d: Disk, faults: set<Fault>, root: string) {
    var dir := ConnManConfigPath(root);
    var p := MainConfPath(root);
    && Fault(Op.Mkdir, dir) !in faults && dir !in d.files
    && Fault(Write, p) !in faults && p !in d.dirs
  }

  predicate MainConfWritable(m: Machine, root: string)
    reads m
  {
    MainConfOk(Disk(m.files, m.dirs), m.faults, root)
  }

  /** The Wi-Fi directory can be made and both Wi-Fi files written. */
  predicate WifiOk(d: Disk, faults: set<Fault>, root: string) {
    var dir := ConnManServicePath(root);
    var settings := SettingsPath(root);
    var service := WifiServicePath(root);
    && Fault(Op.Mkdir, dir) !in faults && dir !in d.files
    && Fault(Write, settings) !in faults && settings !in d.dirs
    && Fault(Write, service) !in faults && service !in d.dirs
  }

  predicate WifiWritable(m: Machine, root: string)
    reads m
  {
    WifiOk(Disk(m.files, m.dirs), m.faults, root)
  }

  /** Everything the network half writes can be written: ConnMan's main configuration and, when a network is named, Wi-Fi. */
  predicate NetworkOk(d: Disk, faults: set<Fault>, network: Network, root: string) {
    && MainConfOk(d, faults, root)
    && WifiPlan(network.wifi).Ok?
    && (WifiPlan(network.wifi) == Ok(true) ==> WifiOk(d, faults, root))
  }

  predicate NetworkWritable(m: Machine, network: Network, root: string)
    reads m
  {
    NetworkOk(Disk(m.files, m.dirs), m.faults, network, root)
  }

  predicate MainConfWritten(files: map<string, FileData>, root: string) {
    MainConfPath(root) in files && files[MainConfPath(root)].content == Text(MainConf)
  }

  predicate WifiWritten(files: map<string, FileData>, root: string, w: Wifi) {
    && SettingsPath(root) in files && files[SettingsPath(root)].content == Text(WifiSettings)
    && WifiServicePath(root) in files && files[WifiServicePath(root)].content == Text(WifiService(w))
  }

  /**
   * The files the network half leaves when it writes everything: main.conf
   * (0644), then, when a network is named, the Wi-Fi settings (0644) and the
   * service file (0600). No other file changes.
   */
  function ConnManFiles(files: map<string, FileData>, network: Network, root: string): (r: map<string, FileData>)
    ensures MainConfWritten(r, root)
    ensures WifiPlan(network.wifi) == Ok(true) ==> WifiWritten(r, root, network.wifi)
    ensures forall q :: q != MainConfPath(root) && q != SettingsPath(root) && q != WifiServicePath(root) ==>
      (q in r <==> q in files) && (q in files ==> r[q] == files[q])
  {
    ConnManLayout(root);
    var main := Written(files, MainConfPath(root), Text(MainConf), Perm0644);
    if WifiPlan(network.wifi) == Ok(true) then
      Written(Written(main, SettingsPath(root), Text(WifiSettings), Perm0644), WifiServicePath(root), Text(WifiService(network.wifi)), Perm0600)
    else main
  }

  /**
   * The directories the network half leaves when it writes everything:
   * ConnMan's configuration directory and, when a network is named, the
   * Wi-Fi directory, each made (0755) with every directory above it.
   */
  function ConnManDirs(dirs: map<string, Attr>, network: Network, root: string): map<string, Attr> {
    var main := MadeAll(dirs, ConnManConfigPath(root), Perm0755);
    if WifiPlan(network.wifi) == Ok(true) then MadeAll(main, ConnManServicePath(root), Perm0755) else main
  }

  /** What the main-configuration step leaves, whatever its outcome: nothing, the directory, or the directory and main.conf. */
  function MainConfLeft(d: Disk, faults: set<Fault>, root: string): Disk {
    var dir := ConnManConfigPath(root);
    var p := MainConfPath(root);
    if Fault(Op.Mkdir, dir) in faults || dir in d.files then d
    else
      var made := d.(dirs := MadeAll(d.dirs, dir, Perm0755));
      if Fault(Write, p) in faults || p in d.dirs then made
      else made.(files := Written(d.files, p, Text(MainConf), Perm0644))
  }

  /** What `applyWifi` leaves, whatever its outcome: each step is done only when every step before it was. */
  function WifiLeft(d: Disk, faults: set<Fault>, w: Wifi, root: string): Disk {
    var dir := ConnManServicePath(root);
    var settings := SettingsPath(root);
    var service := WifiServicePath(root);
    if WifiPlan(w) != Ok(true) || Fault(Op.Mkdir, dir) in faults || dir in d.files then d
    else
      var made := d.(dirs := MadeAll(d.dirs, dir, Perm0755));
      if Fault(Write, settings) in faults || settings in d.dirs then made
      else
        var first := made.(files := Written(d.files, settings, Text(WifiSettings), Perm0644));
        if Fault(Write, service) in faults || service in d.dirs then first
        else first.(files := Written(first.files, service, Text(WifiService(w)), Perm0600))
  }

  /**
   * What the ConnMan part of `applyNetwork` leaves, whatever its outcome:
   * the main-configuration step, then, only when it succeeded, Wi-Fi.
   */
  function ConnManLeft(d: Disk, faults: set<Fault>, network: Network, root: string): Disk {
    var main := MainConfLeft(d, faults, root);
    if MainConfOk(d, faults, root) then WifiLeft(main, faults, network.wifi, root) else main
  }

  /** Every file of `before` is kept or replaced by its `full` version, and no other file appears. */
  predicate FilesBetween(before: map<string, FileData>, after: map<string, FileData>, full: map<string, FileData>) {
    && (forall q :: q in before ==> q in after)
    && (forall q :: q in after ==> (q in before && after[q] == before[q]) || (q in full && after[q] == full[q]))
  }

  /** No directory of `before` goes away, and every directory present is as in `full`. */
  predicate DirsBetween(before: map<string, Attr>, after: map<string, Attr>, full: map<string, Attr>) {
    && before.Keys <= after.Keys
    && (forall x :: x in after ==> x in full && after[x] == full[x])
  }

  /** When everything can be written, the ConnMan part leaves exactly `ConnManFiles` and `ConnManDirs`. */
  lemma ConnManLeftComplete(d: Disk, faults: set<Fault>, network: Network, root: string)
    requires NetworkOk(d, faults, network, root)
    ensures ConnManLeft(d, faults, network, root) == Disk(ConnManFiles(d.files, network, root), ConnManDirs(d.dirs, network, root))
  {
    ConnManLayout(root);
    WifiUntouched(root);
    var main := MainConfLeft(d, faults, root);
    assert main == Disk(Written(d.files, MainConfPath(root), Text(MainConf), Perm0644), MadeAll(d.dirs, ConnManConfigPath(root), Perm0755));
    if WifiPlan(network.wifi) == Ok(true) {
      assert ConnManServicePath(root) !in main.files;
      assert SettingsPath(root) !in main.dirs && WifiServicePath(root) !in main.dirs;
    }
  }

  /**
   * Whatever step fails, every file is as before or as the whole ConnMan part
   * would leave it, none disappears, and the directories are those the whole
   * part makes, with no existing one changed.
   */
  lemma ConnManLeftBetween(d: Disk, faults: set<Fault>, network: Network, root: string)
    ensures var r := ConnManLeft(d, faults, network, root);
      && FilesBetween(d.files, r.files, ConnManFiles(d.files, network, root))
      && DirsBetween(d.dirs, r.dirs, ConnManDirs(d.dirs, network, root))
  {
    ConnManFilesBetween(d, faults, network, root);
    ConnManDirsBetween(d, faults, network, root);
  }

  lemma ConnManFilesBetween(d: Disk, faults: set<Fault>, network: Network, root: string)
    ensures FilesBetween(d.files, ConnManLeft(d, faults, network, root).files, ConnManFiles(d.files, network, root))
  {
    ConnManLayout(root);
    var full := ConnManFiles(d.files, network, root);
    if MainConfOk(d, faults, root) {
      var mainFile := Written(d.files, MainConfPath(root), Text(MainConf), Perm0644);
      assert MainConfLeft(d, faults, root).files == mainFile;
      assert full[MainConfPath(root)] == mainFile[MainConfPath(root)];
      if WifiPlan(network.wifi) == Ok(true) {
        var settingsFile := Written(mainFile, SettingsPath(root), Text(WifiSettings), Perm0644);
        assert full == Written(settingsFile, WifiServicePath(root), Text(WifiService(network.wifi)), Perm0600);
        assert full[SettingsPath(root)] == settingsFile[SettingsPath(root)];
        assert FilesBetween(d.files, mainFile, full);
        assert FilesBetween(d.files, settingsFile, full);
      }
    }
  }

  lemma ConnManDirsBetween(d: Disk, faults: set<Fault>, network: Network, root: string)
    ensures DirsBetween(d.dirs, ConnManLeft(d, faults, network, root).dirs, ConnManDirs(d.dirs, network, root))
  {
    var made := MadeAll(d.dirs, ConnManConfigPath(root), Perm0755);
    var all := MadeAll(made, ConnManServicePath(root), Perm0755);
    var wifi := WifiPlan(network.wifi) == Ok(true);
    var full := if wifi then all else made;
    assert full == ConnManDirs(d.dirs, network, root);
    assert forall x :: x in d.dirs ==> x in made && made[x] == d.dirs[x];
    assert forall x :: x in made ==> x in full && full[x] == made[x];
    var dirs := ConnManLeft(d, faults, network, root).dirs;
    if Fault(Op.Mkdir, ConnManConfigPath(root)) in faults || ConnManConfigPath(root) in d.files {
      assert dirs == d.dirs;
      assert DirsBetween(d.dirs, d.dirs, full);
    } else if !MainConfOk(d, faults, root) {
      assert dirs == made;
      assert DirsBetween(d.dirs, made, full);
    } else {
      var main := MainConfLeft(d, faults, root);
      assert main.dirs == made;
      if wifi && Fault(Op.Mkdir, ConnManServicePath(root)) !in faults && ConnManServicePath(root) !in main.files {
        assert dirs == all == full;
        assert DirsBetween(d.dirs, full, full);
      } else {
        assert dirs == made;
        assert DirsBetween(d.dirs, made, full);
      }
    }
  }

  /** What `applyWifi` makes of a Wi-Fi section: nothing to do (`Ok(false)`), a network to configure (`Ok(true)`), or a refusal. */
  function WifiPlan(w: Wifi): (r: Result<bool>)
    ensures r == Ok(false) <==> w.name == "" && w.password == ""
    ensures r == Ok(true) <==> w.name != ""
    ensures r.Err? ==> r.error == WifiNameRequired
  {
    if w.name == "" && w.password == "" then Ok(false)
    else if w.name == "" then Err(WifiNameRequired)
    else Ok(true)
  }

  /**
   * The Wi-Fi section the workstation writes for a node is never refused by
   * the agent, and it configures a network exactly when one was named.
   */
  lemma NodeWifiAccepted(req: Client.NodeRequest, clusterName: string, authorizedKey: string, k3s: K3s)
    ensures var w := Client.NodeConfig(req, clusterName, authorizedKey, k3s).network.wifi;
      WifiPlan(w) == Ok(req.wifiName != "") && (req.wifiName != "" ==> w == Wifi(req.wifiName, req.wifiPassword))
  {
    Client.NodeConfigContents(req, clusterName, authorizedKey, k3s);
  }

  /** The first half of `applyNetwork`: make ConnMan's directory and write its main configuration. */
  method WriteMainConf(m: Machine, root: string) returns (r: Result<()>)
    modifies m
    ensures r.Ok? <==> old(MainConfWritable(m, root))
    ensures r.Ok? ==> m.files == Written(old(m.files), MainConfPath(root), Text(MainConf), Perm0644)
    ensures r.Ok? ==> ConnManConfigPath(root) in m.dirs
    ensures r.Ok? ==> m.dirs == MadeAll(old(m.dirs), ConnManConfigPath(root), Perm0755)
    ensures r.Err? ==> m.files == old(m.files)
    ensures r.Err? ==>
      r.error.Wrapped? && r.error.context in {DirContext(ConnManConfigDir), ConnManWriteContext(MainConfPath(root))}
    ensures Disk(m.files, m.dirs) == MainConfLeft(old(Disk(m.files, m.dirs)), m.faults, root)
    ensures m.dirs.Keys >= old(m.dirs).Keys && m.hostname == old(m.hostname)
    ensures m.replies == old(m.replies) && m.statuses == old(m.statuses) && m.executed == old(m.executed)
  {
    ConnManLayout(root);
    var dir := ConnManConfigPath(root);
    var made := m.MkdirAll(dir, Perm0755);
    if made.Err? {
      return Err(Wrapped(DirContext(ConnManConfigDir), made.error));
    }
    NoLongerAncestor(dir, MainConfPath(root));
    var mainPath := MainConfPath(root);
    var written := m.WriteFile(mainPath, Text(MainConf), Perm0644);
    if written.Err? {
      return Err(Wrapped(ConnManWriteContext(mainPath), written.error));
    }
    r := Ok(());
  }

  /** `applyWifi`. */
  method ApplyWifi(m: Machine, w: Wifi, root: string) returns (r: Result<()>)
    modifies m
    ensures WifiPlan(w).Err? ==> r == Err(WifiNameRequired) && m.dirs == old(m.dirs) && m.files == old(m.files)
    ensures WifiPlan(w) == Ok(false) ==> r == Ok(()) && m.dirs == old(m.dirs) && m.files == old(m.files)
    ensures WifiPlan(w) == Ok(true) ==> (r.Ok? <==> old(WifiWritable(m, root)))
    ensures WifiPlan(w) == Ok(true) && r.Ok? ==>
      m.files == Written(Written(old(m.files), SettingsPath(root), Text(WifiSettings), Perm0644),
                         WifiServicePath(root), Text(WifiService(w)), Perm0600)
    ensures WifiPlan(w) == Ok(true) && r.Ok? ==> m.dirs == MadeAll(old(m.dirs), ConnManServicePath(root), Perm0755)
    ensures WifiPlan(w) == Ok(true) && r.Err? ==>
      && (m.files == old(m.files) || m.files == Written(old(m.files), SettingsPath(root), Text(WifiSettings), Perm0644))
      && r.error.Wrapped?
      && r.error.context in {DirContext(ConnManServiceDir), ConnManWriteContext(SettingsPath(root)), ConnManWriteContext(WifiServicePath(root))}
    ensures Disk(m.files, m.dirs) == WifiLeft(old(Disk(m.files, m.dirs)), m.faults, w, root)
    ensures m.dirs.Keys >= old(m.dirs).Keys && m.hostname == old(m.hostname)
    ensures m.replies == old(m.replies) && m.statuses == old(m.statuses) && m.executed == old(m.executed)
  {
    if w.name == "" && w.password == "" {
      return Ok(());
    }
    if w.name == "" {
      return Err(WifiNameRequired);
    }
    ConnManLayout(root);
    var dir := ConnManServicePath(root);
    var made := m.MkdirAll(dir, Perm0755);
    if made.Err? {
      return Err(Wrapped(DirContext(ConnManServiceDir), made.error));
    }
    NoLongerAncestor(dir, SettingsPath(root));
    NoLongerAncestor(dir, WifiServicePath(root));
    var settingsPath := SettingsPath(root);
    var settings := m.WriteFile(settingsPath, Text(WifiSettings), Perm0644);
    if settings.Err? {
      return Err(Wrapped(ConnManWriteContext(settingsPath), settings.error));
    }
    var servicePath := WifiServicePath(root);
    var service := m.WriteFile(servicePath, Text(WifiService(w)), Perm0600);
    if service.Err? {
      return Err(Wrapped(ConnManWriteContext(servicePath), service.error));
    }
    r := Ok(());
  }

  // ---------------------------------------------------------------------
  // Tailscale

  function JoinCommand(authKey: string): Command {
    Command(TS.UpArgs(authKey), "")
  }

  function StateCommand(): Command {
    Command(Net.StateArgs, "")
  }

  /**
   * What `applyTailscale` does, read off the daemon's answers and the
   * command replies: its result, how many of each it used, and the
   * commands it ran.
   */
  datatype Trace = Trace(result: Result<()>, statusesUsed: nat, repliesUsed: nat, commands: seq<Command>)

  function TailscaleTrace(authKey: string, ss: seq<StatusReply>, rs: seq<CmdReply>): (t: Trace)
    ensures t.statusesUsed <= |ss| && t.repliesUsed <= |rs|
  {
    if authKey == "" then Trace(Err(TailscaleAuthKeyRequired), 0, 0, [])
    else
      var d := TS.DaemonPoll(ss);
      if d.result.Err? then Trace(d.result, d.consumed, 0, [])
      else if d.consumed == |ss| then Trace(Err(Waiting("tailscaled")), d.consumed, 0, [])
      else
        var configured := TS.Configured(ss[d.consumed]);
        var s := d.consumed + 1;
        if configured.Err? then Trace(Err(configured.error), s, 0, [])
        else if configured.value then Trace(Ok(()), s, 0, [])
        else
          var j := JoinTrace(authKey, ss[s..], rs);
          j.(statusesUsed := s + j.statusesUsed)
  }

  /**
   * The second half of `applyTailscale`, once the daemon has said the node
   * is not configured: wait for the network, join, wait for an address.
   */
  function JoinTrace(authKey: string, ss: seq<StatusReply>, rs: seq<CmdReply>): (t: Trace)
    ensures t.statusesUsed <= |ss| && t.repliesUsed <= |rs|
  {
    var n := Net.NetworkPoll(rs);
    var checks := Net.Repeated(StateCommand(), n.consumed);
    if n.result.Err? then Trace(n.result, 0, n.consumed, checks)
    else if n.consumed == |rs| then Trace(Err(Wrapped(JoinContext, Waiting("command"))), 0, n.consumed, checks)
    else
      var joined := TS.UpResult(rs[n.consumed]);
      var commands := checks + [JoinCommand(authKey)];
      if joined.Err? then Trace(Err(Wrapped(JoinContext, joined.error)), 0, n.consumed + 1, commands)
      else
        var ip := TS.IPPoll(ss);
        Trace(if ip.result.Err? then Err(Wrapped(AddressContext, ip.result.error)) else Ok(()),
              ip.consumed, n.consumed + 1, commands)
  }

  lemma {:induction false} RepeatedAll<T>(x: T, n: nat)
    ensures forall i :: 0 <= i < n ==> Net.Repeated(x, n)[i] == x
  {
    if n > 0 {
      RepeatedAll(x, n - 1);
    }
  }

  /**
   * The idempotence guard: once the daemon has started, a node that has
   * already joined a tailnet is left alone, with no network check and no
   * join.
   */
  lemma ConfiguredNodeNotRejoined(authKey: string, ss: seq<StatusReply>, rs: seq<CmdReply>)
    ensures var t := TailscaleTrace(authKey, ss, rs);
      var d := TS.DaemonPoll(ss);
      authKey != "" && d.result.Ok? && d.consumed < |ss| && TS.Configured(ss[d.consumed]) == Ok(true) ==>
        t.result == Ok(()) && t.commands == [] && t.repliesUsed == 0 && t.statusesUsed == d.consumed + 1
  {
    var d := TS.DaemonPoll(ss);
    if authKey != "" && d.result.Ok? && d.consumed < |ss| && TS.Configured(ss[d.consumed]) == Ok(true) {
      assert TailscaleTrace(authKey, ss, rs) == Trace(Ok(()), d.consumed + 1, 0, []);
    }
  }

  /** The commands of the join half: network checks, then the join once the network is ready. */
  lemma JoinCommands(authKey: string, ss: seq<StatusReply>, rs: seq<CmdReply>)
    ensures var t := JoinTrace(authKey, ss, rs);
      var n := Net.NetworkPoll(rs);
      || t.commands == Net.Repeated(StateCommand(), n.consumed)
      || (&& t.commands == Net.Repeated(StateCommand(), n.consumed) + [JoinCommand(authKey)]
          && n.result.Ok? && t.repliesUsed == n.consumed + 1)
  {
  }

  /** `applyTailscale` runs network checks and, last, at most one join. */
  lemma ChecksThenJoin(authKey: string, ss: seq<StatusReply>, rs: seq<CmdReply>)
    ensures var t := TailscaleTrace(authKey, ss, rs);
      && (forall i :: 0 <= i < |t.commands| ==> t.commands[i] == StateCommand() || t.commands[i] == JoinCommand(authKey))
      && (forall i :: 0 <= i < |t.commands| - 1 ==> t.commands[i] == StateCommand())
  {
    var t := TailscaleTrace(authKey, ss, rs);
    TraceOfJoin(authKey, ss, rs);
    if t.commands != [] {
      var d := TS.DaemonPoll(ss);
      JoinCommands(authKey, ss[d.consumed + 1..], rs);
      ChecksThenOne(t.commands, Net.NetworkPoll(rs).consumed, StateCommand(), JoinCommand(authKey));
    }
  }

  /** Copies of `x`, possibly followed by one `y`. */
  lemma ChecksThenOne<T>(s: seq<T>, k: nat, x: T, y: T)
    requires s == Net.Repeated(x, k) || s == Net.Repeated(x, k) + [y]
    ensures forall i :: 0 <= i < |s| ==> s[i] == x || s[i] == y
    ensures forall i :: 0 <= i < |s| - 1 ==> s[i] == x
  {
    RepeatedAll(x, k);
  }

  /**
   * A join is attempted only after the daemon reported the node
   * unconfigured and ConnMan reported the network ready, and it is the last
   * command.
   */
  lemma JoinOnlyWhenUnconfigured(authKey: string, ss: seq<StatusReply>, rs: seq<CmdReply>)
    ensures var t := TailscaleTrace(authKey, ss, rs);
      JoinCommand(authKey) in t.commands ==>
        && authKey != ""
        && t.commands[|t.commands| - 1] == JoinCommand(authKey)
        && (var k := TS.DaemonPoll(ss).consumed; k < |ss| && TS.Configured(ss[k]) == Ok(false))
        && t.repliesUsed >= 2 && Net.IsReady(rs[t.repliesUsed - 2])
  {
    assert StateCommand() != JoinCommand(authKey) by {
      assert StateCommand().argv[0] != JoinCommand(authKey).argv[0];
    }
    if authKey != "" {
      var d := TS.DaemonPoll(ss);
      if d.result.Ok? && d.consumed < |ss| && TS.Configured(ss[d.consumed]) == Ok(false) {
        var t := TailscaleTrace(authKey, ss, rs);
        var j := JoinTrace(authKey, ss[d.consumed + 1..], rs);
        assert t.commands == j.commands && t.repliesUsed == j.repliesUsed;
        var n := Net.NetworkPoll(rs);
        RepeatedAll(StateCommand(), n.consumed);
        JoinCommands(authKey, ss[d.consumed + 1..], rs);
      } else {
        TraceOfJoin(authKey, ss, rs);
      }
    }
  }


  /** Commands run by `applyTailscale` all come from its join half. */
  lemma TraceOfJoin(authKey: string, ss: seq<StatusReply>, rs: seq<CmdReply>)
    ensures var t := TailscaleTrace(authKey, ss, rs);
      var d := TS.DaemonPoll(ss);
      || (t.commands == [] && t.repliesUsed == 0)
      || (&& authKey != "" && d.result.Ok? && d.consumed < |ss| && TS.Configured(ss[d.consumed]) == Ok(false)
          && var j := JoinTrace(authKey, ss[d.consumed + 1..], rs);
             t.commands == j.commands && t.repliesUsed == j.repliesUsed && t.result == j.result)
  {
    var t := TailscaleTrace(authKey, ss, rs);
    var d := TS.DaemonPoll(ss);
    if authKey == "" || d.result.Err? || d.consumed == |ss| {
      assert t.commands == [] && t.repliesUsed == 0;
    } else if TS.Configured(ss[d.consumed]) != Ok(false) {
      assert t.commands == [] && t.repliesUsed == 0;
    }
  }

  /**
   * When `applyTailscale` succeeds: the node was already configured and
   * nothing ran, or the join was accepted, authorized or not, after a ready
   * network, and the node got an address.
   */
  lemma TailscaleSuccess(authKey: string, ss: seq<StatusReply>, rs: seq<CmdReply>)
    ensures var t := TailscaleTrace(authKey, ss, rs);
      t.result.Ok? ==>
        && authKey != ""
        && TS.DaemonPoll(ss).result.Ok? && TS.DaemonPoll(ss).consumed < |ss|
        && var k := TS.DaemonPoll(ss).consumed;
           || (TS.Configured(ss[k]) == Ok(true) && t.commands == [] && t.repliesUsed == 0)
           || (&& TS.Configured(ss[k]) == Ok(false)
               && t.repliesUsed > 0 && TS.UpResult(rs[t.repliesUsed - 1]).Ok?
               && t.commands[|t.commands| - 1] == JoinCommand(authKey)
               && TS.IPPoll(ss[k + 1..]).result.Ok?)
  {
    if authKey != "" {
      var d := TS.DaemonPoll(ss);
      if d.result.Ok? && d.consumed < |ss| {
        var c := TS.Configured(ss[d.consumed]);
        if c == Ok(false) {
          var t := TailscaleTrace(authKey, ss, rs);
          var j := JoinTrace(authKey, ss[d.consumed + 1..], rs);
          assert t.commands == j.commands && t.repliesUsed == j.repliesUsed && t.result == j.result;
          JoinSuccess(authKey, ss[d.consumed + 1..], rs);
        }
      }
    }
  }


  /** A successful join half ran `tailscale up` last, was accepted, and the node got an address. */
  lemma JoinSuccess(authKey: string, ss: seq<StatusReply>, rs: seq<CmdReply>)
    ensures var j := JoinTrace(authKey, ss, rs);
      j.result.Ok? ==>
        && j.repliesUsed > 0 && TS.UpResult(rs[j.repliesUsed - 1]).Ok?
        && j.commands != [] && j.commands[|j.commands| - 1] == JoinCommand(authKey)
        && TS.IPPoll(ss).result.Ok?
  {
    var j := JoinTrace(authKey, ss, rs);
    var n := Net.NetworkPoll(rs);
    if j.result.Ok? {
      assert n.result.Ok? && n.consumed < |rs|;
      var commands := Net.Repeated(StateCommand(), n.consumed) + [JoinCommand(authKey)];
      assert j.repliesUsed == n.consumed + 1 && j.commands == commands;
      assert TS.UpResult(rs[n.consumed]).Ok?;
      assert commands[|commands| - 1] == JoinCommand(authKey);
    }
  }


  /** A join that still waits for an administrator's approval counts as success. */
  lemma UnauthorizedJoinSucceeds(authKey: string, ss: seq<StatusReply>, rs: seq<CmdReply>, output: string)
    requires authKey != ""
    requires |ss| >= 2 && ss[0] == Status(TS.NeedsLogin, []) && ss[1] == Status(TS.NeedsLogin, [])
    requires TS.IPPoll(ss[2..]).result.Ok?
    requires |rs| == 2 && Net.IsReady(rs[0]) && rs[1] == Exited(1, output) && Contains(output, TS.UnauthorizedMarker)
    ensures TailscaleTrace(authKey, ss, rs).result == Ok(())
    ensures TailscaleTrace(authKey, ss, rs).commands == [StateCommand(), JoinCommand(authKey)]
  {
    assert TS.DaemonPoll(ss) == TS.Poll(1, Ok(()));
    assert TS.Configured(ss[1]) == Ok(false);
    assert Net.NetworkPoll(rs) == TS.Poll(1, Ok(()));
    assert TS.UpResult(rs[1]) == Ok(false);
    assert Net.Repeated(StateCommand(), 1) == [StateCommand()];
  }

  /** `applyTailscale`. */
  method ApplyTailscale(m: Machine, authKey: string) returns (r: Result<()>)
    modifies m
    ensures var t := TailscaleTrace(authKey, old(m.statuses), old(m.replies));
      && r == t.result
      && m.statuses == old(m.statuses)[t.statusesUsed..]
      && m.replies == old(m.replies)[t.repliesUsed..]
      && m.executed == old(m.executed) + t.commands
    ensures m.dirs == old(m.dirs) && m.files == old(m.files) && m.hostname == old(m.hostname)
  {
    if authKey == "" {
      return Err(TailscaleAuthKeyRequired);
    }
    // `WaitDaemon` returns only once the daemon has started; `Waiting` is
    // the agent still blocked there.
    var daemon := TS.WaitDaemon(m);
    if daemon.Err? {
      return daemon;
    }
    ghost var k := TS.DaemonPoll(old(m.statuses)).consumed;
    var configured := TS.IsConfigured(m);
    if configured.Err? {
      return Err(configured.error);
    }
    if configured.value {
      return Ok(());
    }
    assert m.statuses == old(m.statuses)[k + 1..];
    r := JoinTailnet(m, authKey);
  }

  /** The second half of `applyTailscale`: wait for the network, join, wait for the node's address. */
  method JoinTailnet(m: Machine, authKey: string) returns (r: Result<()>)
    modifies m
    ensures var t := JoinTrace(authKey, old(m.statuses), old(m.replies));
      && r == t.result
      && m.statuses == old(m.statuses)[t.statusesUsed..]
      && m.replies == old(m.replies)[t.repliesUsed..]
      && m.executed == old(m.executed) + t.commands
    ensures m.dirs == old(m.dirs) && m.files == old(m.files) && m.hostname == old(m.hostname)
  {
    ghost var n := Net.NetworkPoll(old(m.replies));
    ghost var checks := Net.Repeated(StateCommand(), n.consumed);
    // `WaitNetwork` returns only once the network is ready.
    var network := Net.WaitNetwork(m);
    if network.Err? {
      return network;
    }
    assert m.executed == old(m.executed) + checks && m.replies == old(m.replies)[n.consumed..];
    if m.replies == [] {
      assert n.consumed == |old(m.replies)|;
    }
    var joined := TS.Up(m, authKey);
    if joined.Err? {
      return Err(Wrapped(JoinContext, joined.error));
    }
    assert joined == TS.UpResult(old(m.replies)[n.consumed]);
    assert m.executed == old(m.executed) + (checks + [JoinCommand(authKey)]);
    assert m.replies == old(m.replies)[n.consumed + 1..] && m.statuses == old(m.statuses);
    ghost var polled := TS.IPPoll(old(m.statuses));
    assert JoinTrace(authKey, old(m.statuses), old(m.replies)).statusesUsed == polled.consumed;
    var ip := TS.WaitIP(m);
    if ip.Err? {
      return Err(Wrapped(AddressContext, ip.error));
    }
    r := Ok(());
  }

  // ---------------------------------------------------------------------
  // Network

  /** The entry of `p` is the same before and after. */
  predicate Kept(before: map<string, FileData>, after: map<string, FileData>, p: string) {
    (p in after <==> p in before) && (p in before ==> after[p] == before[p])
  }

  /**
   * `applyNetwork`: ConnMan's main configuration, then Wi-Fi, then
   * Tailscale; the first failure ends it. When everything it writes can be
   * written, it writes ConnMan's files and its outcome is Tailscale's;
   * otherwise it stops before Tailscale, with an error and no daemon answer
   * or command used.
   */
  method ApplyNetwork(m: Machine, network: Network, root: string) returns (r: Result<()>)
    modifies m
    ensures var t := TailscaleTrace(network.tailscale.authKey, old(m.statuses), old(m.replies));
      old(NetworkWritable(m, network, root)) ==>
        && r == t.result
        && m.statuses == old(m.statuses)[t.statusesUsed..] && m.replies == old(m.replies)[t.repliesUsed..]
        && m.executed == old(m.executed) + t.commands
        && MainConfWritten(m.files, root)
        && (WifiPlan(network.wifi) == Ok(true) ==> WifiWritten(m.files, root, network.wifi))
        && m.files == ConnManFiles(old(m.files), network, root) && m.dirs == ConnManDirs(old(m.dirs), network, root)
    ensures !old(NetworkWritable(m, network, root)) ==>
      r.Err? && m.statuses == old(m.statuses) && m.replies == old(m.replies) && m.executed == old(m.executed)
    ensures !old(MainConfWritable(m, root)) ==> m.files == old(m.files)
    ensures WifiPlan(network.wifi).Err? ==> r == Err(WifiNameRequired) || !old(MainConfWritable(m, root))
    ensures Kept(old(m.files), m.files, K3sEnvPath)
    ensures Disk(m.files, m.dirs) == ConnManLeft(old(Disk(m.files, m.dirs)), m.faults, network, root)
    ensures m.dirs.Keys >= old(m.dirs).Keys && m.hostname == old(m.hostname)
  {
    var written := WriteConnMan(m, network, root);
    if written.Err? {
      return written;
    }
    r := ApplyTailscale(m, network.tailscale.authKey);
  }

  /** Making ConnMan's configuration directory and writing its main file touch none of the Wi-Fi paths. */
  lemma WifiUntouched(root: string)
    ensures SettingsPath(root) !in Ancestors(ConnManConfigPath(root))
    ensures WifiServicePath(root) !in Ancestors(ConnManConfigPath(root))
    ensures MainConfPath(root) != ConnManServicePath(root)
  {
    ConnManLayout(root);
    NoLongerAncestor(ConnManConfigPath(root), SettingsPath(root));
    NoLongerAncestor(ConnManConfigPath(root), WifiServicePath(root));
  }

  /** The part of `applyNetwork` before Tailscale: ConnMan's main configuration, then Wi-Fi. */
  method WriteConnMan(m: Machine, network: Network, root: string) returns (r: Result<()>)
    modifies m
    ensures r.Ok? <==> old(NetworkWritable(m, network, root))
    ensures r.Ok? ==>
      && MainConfWritten(m.files, root)
      && (WifiPlan(network.wifi) == Ok(true) ==> WifiWritten(m.files, root, network.wifi))
    ensures r.Ok? ==> m.files == ConnManFiles(old(m.files), network, root) && m.dirs == ConnManDirs(old(m.dirs), network, root)
    ensures !old(MainConfWritable(m, root)) ==> m.files == old(m.files)
    ensures WifiPlan(network.wifi).Err? ==> r == Err(WifiNameRequired) || !old(MainConfWritable(m, root))
    ensures Kept(old(m.files), m.files, K3sEnvPath)
    ensures Disk(m.files, m.dirs) == ConnManLeft(old(Disk(m.files, m.dirs)), m.faults, network, root)
    ensures m.dirs.Keys >= old(m.dirs).Keys && m.hostname == old(m.hostname)
    ensures m.replies == old(m.replies) && m.statuses == old(m.statuses) && m.executed == old(m.executed)
  {
    ConnManLayout(root);
    var main := WriteMainConf(m, root);
    if main.Err? {
      return main;
    }
    WifiUntouched(root);
    assert MainConfWritten(m.files, root) && Kept(old(m.files), m.files, K3sEnvPath);
    assert SettingsPath(root) in m.dirs <==> SettingsPath(root) in old(m.dirs);
    assert WifiServicePath(root) in m.dirs <==> WifiServicePath(root) in old(m.dirs);
    assert ConnManServicePath(root) in m.files <==> ConnManServicePath(root) in old(m.files);
    r := ApplyWifi(m, network.wifi, root);
  }

  // ---------------------------------------------------------------------
  // k3s

  /** The k3s subcommand: `agent` for a worker, `server` otherwise. */
  function K3sCommand(role: string): (c: string)
    ensures c == "agent" <==> role == WorkerRole
    ensures c == "agent" || c == "server"
  {
    if role == WorkerRole then "agent" else "server"
  }

  function K3sArgs(role: string, ip: string): seq<string> {
    [K3sCommand(role), "--bind-address", Quote(ip), "--flannel-iface", "tailscale0"]
  }

  /** The environment file of a `cluster-init` node. */
  function K3sEnv(k3s: K3s, ip: string): map<string, string> {
    map["K3S_TOKEN" := k3s.token, "K3S_CLUSTER_INIT" := "true", "command_args" := Join(K3sArgs(k3s.role, ip), " ")]
  }

  lemma JoinFive(a: string, b: string, c: string, d: string, e: string, sep: string)
    ensures Join([a, b, c, d, e], sep) == a + sep + b + sep + c + sep + d + sep + e
  {
    var parts := [a, b, c, d, e];
    assert Join(parts[4..], sep) == e;
    assert Join(parts[3..], sep) == d + sep + e;
    assert Join(parts[2..], sep) == c + sep + d + sep + e;
    assert Join(parts[1..], sep) == b + sep + c + sep + d + sep + e;
  }

  /** The k3s command line: the subcommand, bound to the Tailscale address, with flannel on the Tailscale interface. */
  lemma K3sCommandLine(role: string, ip: string)
    ensures Join(K3sArgs(role, ip), " ") ==
      K3sCommand(role) + " " + "--bind-address" + " " + Quote(ip) + " " + "--flannel-iface" + " " + "tailscale0"
  {
    JoinFive(K3sCommand(role), "--bind-address", Quote(ip), "--flannel-iface", "tailscale0", " ");
  }

  /** The k3s environment holds exactly the token, the cluster-init flag and the command line. */
  lemma K3sEnvContents(k3s: K3s, ip: string)
    ensures var env := K3sEnv(k3s, ip);
      && env.Keys == {"K3S_TOKEN", "K3S_CLUSTER_INIT", "command_args"}
      && env["K3S_TOKEN"] == k3s.token && env["K3S_CLUSTER_INIT"] == "true"
      && env["command_args"] == Join(K3sArgs(k3s.role, ip), " ")
  {
  }

  lemma {:induction false} QuoteBodyWithout(s: string, c: char)
    requires c !in s && c != '\\'
    ensures c !in QuoteBody(s)
    decreases |s|
  {
    if s != [] {
      QuoteBodyWithout(s[1..], c);
      assert s[0] != c;
    }
  }

  /** When the address has no space, splitting the command line at spaces gives back the arguments. */
  lemma K3sArgsRecovered(role: string, ip: string)
    requires ' ' !in ip
    ensures Split(Join(K3sArgs(role, ip), " "), ' ') == K3sArgs(role, ip)
  {
    QuoteBodyWithout(ip, ' ');
    var args := K3sArgs(role, ip);
    assert ' ' !in Quote(ip);
    assert forall i :: 0 <= i < |args| ==> ' ' !in args[i];
    SplitJoin(args, ' ');
  }

  /** Whether `applyK3s` succeeds: this node initialises the cluster, with a token, gets its Tailscale address, and can write the environment file. */
  predicate K3sApplies(k3s: K3s, ss: seq<StatusReply>, envWritable: bool) {
    k3s.role == ClusterInitRole && k3s.token != "" && TS.IPPoll(ss).result.Ok? && envWritable
  }

  /** `applyK3s`. */
  method ApplyK3s(m: Machine, k3s: K3s) returns (r: Result<()>)
    modifies m
    ensures !IsKnownRole(k3s.role) ==> r == Err(InvalidK3sRole) && m.statuses == old(m.statuses) && m.files == old(m.files)
    ensures IsKnownRole(k3s.role) && k3s.token == "" ==>
      r == Err(K3sTokenRequired) && m.statuses == old(m.statuses) && m.files == old(m.files)
    ensures IsKnownRole(k3s.role) && k3s.token != "" ==>
      var ip := TS.IPPoll(old(m.statuses));
      && m.statuses == old(m.statuses)[ip.consumed..]
      && (ip.result.Err? ==> r == Err(Wrapped(K3sAddressContext, ip.result.error)) && m.files == old(m.files))
      && (ip.result.Ok? && k3s.role != ClusterInitRole ==> r == Err(RoleNotImplemented(k3s.role)) && m.files == old(m.files))
      && (ip.result.Ok? && k3s.role == ClusterInitRole ==>
           && (r.Ok? <==> old(m.CanWrite(K3sEnvPath)))
           && (r.Ok? ==> m.files == Written(old(m.files), K3sEnvPath, EnvFile(K3sEnv(k3s, ip.result.value)), Perm0666))
           && (r.Err? ==> m.files == old(m.files) && r.error.Wrapped? && r.error.context == K3sEnvContext))
    ensures r.Ok? <==> K3sApplies(k3s, old(m.statuses), old(m.CanWrite(K3sEnvPath)))
    ensures m.dirs == old(m.dirs) && m.hostname == old(m.hostname)
    ensures m.replies == old(m.replies) && m.executed == old(m.executed)
  {
    if !(k3s.role == ClusterInitRole || k3s.role == ControlPlaneRole || k3s.role == WorkerRole) {
      return Err(InvalidK3sRole);
    }
    if k3s.token == "" {
      return Err(K3sTokenRequired);
    }
    var ip := TS.WaitIP(m);
    if ip.Err? {
      return Err(Wrapped(K3sAddressContext, ip.error));
    }
    var env := map["K3S_TOKEN" := k3s.token];
    var command := "server";
    if k3s.role == WorkerRole {
      command := "agent";
    }
    var args := [command, "--bind-address", Quote(ip.value), "--flannel-iface", "tailscale0"];
    if k3s.role == ClusterInitRole {
      env := env["K3S_CLUSTER_INIT" := "true"];
    } else {
      return Err(RoleNotImplemented(k3s.role));
    }
    env := env["command_args" := Join(args, " ")];
    assert env == K3sEnv(k3s, ip.value);
    var written := m.WriteFile(K3sEnvPath, EnvFile(env), Perm0666);
    if written.Err? {
      return Err(Wrapped(K3sEnvContext, written.error));
    }
    r := Ok(());
  }

  // ---------------------------------------------------------------------
  // The agent

  /** The files `applyConfig` leaves when it succeeds: ConnMan's files, then the k3s environment (0666) for the address `ip`. */
  function ConfigFiles(files: map<string, FileData>, cfg: Config, root: string, ip: string): (r: map<string, FileData>)
    ensures K3sEnvPath in r && r[K3sEnvPath].content == EnvFile(K3sEnv(cfg.k3s, ip))
    ensures MainConfWritten(r, root)
    ensures WifiPlan(cfg.network.wifi) == Ok(true) ==> WifiWritten(r, root, cfg.network.wifi)
    ensures forall q :: q != MainConfPath(root) && q != SettingsPath(root) && q != WifiServicePath(root) && q != K3sEnvPath ==>
      (q in r <==> q in files) && (q in files ==> r[q] == files[q])
  {
    ConnManLayout(root);
    Written(ConnManFiles(files, cfg.network, root), K3sEnvPath, EnvFile(K3sEnv(cfg.k3s, ip)), Perm0666)
  }

  /**
   * Whether the k3s environment file can be written once the network half
   * has made its directories: writing it is not refused, it is not a
   * directory, and its directory exists.
   */
  predicate EnvWritableAfter(m: Machine, network: Network, root: string)
    reads m
  {
    var dirs := ConnManDirs(m.dirs, network, root);
    Fault(Write, K3sEnvPath) !in m.faults && K3sEnvPath !in dirs && Parent(K3sEnvPath) in dirs
  }

  /** A path that differs from `p` at a position inside both is none of the directories `MkdirAll(p)` makes. */
  lemma Diverges(x: string, p: string, k: nat)
    requires k < |x| && k < |p| && x[k] != p[k]
    ensures x !in Ancestors(p)
  {
  }

  /**
   * On a node, the network half makes neither the k3s environment file nor
   * its directory, so whether that file can be written is decided before
   * `applyConfig` starts.
   */
  lemma EnvUntouchedOnNode(m: Machine, network: Network)
    ensures EnvWritableAfter(m, network, "/") <==> m.CanWrite(K3sEnvPath)
  {
    var k3sDir := "/etc/rancher/k3s";
    assert K3sEnvPath == k3sDir + "/" + "k3s.env";
    ParentOfChild(k3sDir, "k3s.env");
    RootedAtSlash(ConnManConfigDir);
    RootedAtSlash(ConnManServiceDir);
    Diverges(k3sDir, ConnManConfigDir, 5);
    Diverges(K3sEnvPath, ConnManConfigDir, 5);
    Diverges(k3sDir, ConnManServiceDir, 1);
    Diverges(K3sEnvPath, ConnManServiceDir, 1);
  }

  /**
   * Whether `applyConfig` succeeds: the network half can write its files,
   * Tailscale comes up, the document makes this node the one that
   * initialises the cluster with a token, the node gets its Tailscale
   * address, and the k3s environment file can be written.
   */
  predicate ConfigApplies(cfg: Config, networkWritable: bool, ss: seq<StatusReply>, rs: seq<CmdReply>, envWritable: bool) {
    var t := TailscaleTrace(cfg.network.tailscale.authKey, ss, rs);
    && networkWritable && t.result.Ok?
    && K3sApplies(cfg.k3s, ss[t.statusesUsed..], envWritable)
  }

  /**
   * `ApplyConfig`: the network, then k3s; a network failure ends it with
   * k3s untouched. `network` is the outcome of the network half; the k3s
   * half reads the daemon's answers the network half left. The k3s file is
   * written after the network half, so whether it can be written is read
   * over the directories the network half makes.
   */
  method ApplyConfig(m: Machine, cfg: Config, root: string) returns (r: Result<()>, ghost network: Result<()>)
    modifies m
    ensures var t := TailscaleTrace(cfg.network.tailscale.authKey, old(m.statuses), old(m.replies));
      && (old(NetworkWritable(m, cfg.network, root)) ==> network == t.result)
      && (!old(NetworkWritable(m, cfg.network, root)) ==> network.Err?)
      && (network.Ok? ==> m.replies == old(m.replies)[t.repliesUsed..] && m.executed == old(m.executed) + t.commands)
    ensures network.Err? ==> r == network && Kept(old(m.files), m.files, K3sEnvPath)
    ensures network.Ok? ==>
      var t := TailscaleTrace(cfg.network.tailscale.authKey, old(m.statuses), old(m.replies));
      var ss := old(m.statuses)[t.statusesUsed..];
      var ip := TS.IPPoll(ss);
      && (!IsKnownRole(cfg.k3s.role) ==> r == Err(InvalidK3sRole))
      && (IsKnownRole(cfg.k3s.role) && cfg.k3s.token == "" ==> r == Err(K3sTokenRequired))
      && (IsKnownRole(cfg.k3s.role) && cfg.k3s.token != "" ==>
            && m.statuses == ss[ip.consumed..]
            && (ip.result.Err? ==> r == Err(Wrapped(K3sAddressContext, ip.result.error)))
            && (ip.result.Ok? && cfg.k3s.role != ClusterInitRole ==> r == Err(RoleNotImplemented(cfg.k3s.role))))
    ensures r.Ok? <==>
      ConfigApplies(cfg, old(NetworkWritable(m, cfg.network, root)), old(m.statuses), old(m.replies),
                    old(EnvWritableAfter(m, cfg.network, root)))
    ensures network.Ok? ==> m.dirs == ConnManDirs(old(m.dirs), cfg.network, root)
    ensures network.Ok? && r.Err? ==> m.files == ConnManFiles(old(m.files), cfg.network, root)
    ensures r.Err? ==> Disk(m.files, m.dirs) == ConnManLeft(old(Disk(m.files, m.dirs)), m.faults, cfg.network, root)
    ensures r.Ok? ==>
      var t := TailscaleTrace(cfg.network.tailscale.authKey, old(m.statuses), old(m.replies));
      var ip := TS.IPPoll(old(m.statuses)[t.statusesUsed..]);
      m.files == ConfigFiles(old(m.files), cfg, root, ip.result.value)
    ensures |m.executed| >= |old(m.executed)| && m.executed[..|old(m.executed)|] == old(m.executed)
    ensures forall i :: |old(m.executed)| <= i < |m.executed| ==>
      m.executed[i] == StateCommand() || m.executed[i] == JoinCommand(cfg.network.tailscale.authKey)
    ensures m.hostname == old(m.hostname)
  {
    ChecksThenJoin(cfg.network.tailscale.authKey, old(m.statuses), old(m.replies));
    ConnManLayout(root);
    var net := ApplyNetwork(m, cfg.network, root);
    network := net;
    if net.Err? {
      return net, network;
    }
    ConnManLeftComplete(old(Disk(m.files, m.dirs)), m.faults, cfg.network, root);
    r := ApplyK3s(m, cfg.k3s);
  }

  function ServiceArgs(name: string): seq<string> {
    ["/etc/init.d/" + name, "start"]
  }

  function StartK3sCommand(): Command {
    Command(ServiceArgs("k3s"), "")
  }

  /** `StartService` (internal/system/openrc.go): run the service's init script; a failure carries its output. */
  method StartService(m: Machine, name: string) returns (r: Result<()>)
    modifies m
    ensures old(m.replies) == [] ==> r == Err(Waiting("command")) && m.replies == [] && m.executed == old(m.executed)
    ensures old(m.replies) != [] ==>
      && m.replies == old(m.replies)[1..]
      && m.executed == old(m.executed) + [Command(ServiceArgs(name), "")]
      && (r.Ok? <==> Succeeded(old(m.replies)[0]))
      && (r.Err? ==> r.error == ServiceNotStarted(name, OutputOf(old(m.replies)[0])))
    ensures m.dirs == old(m.dirs) && m.files == old(m.files) && m.hostname == old(m.hostname) && m.statuses == old(m.statuses)
  {
    var reply := m.Exec(ServiceArgs(name), "");
    if reply.Err? {
      return Err(reply.error);
    }
    if !Succeeded(reply.value) {
      return Err(ServiceNotStarted(name, OutputOf(reply.value)));
    }
    r := Ok(());
  }

  /** The init script of k3s is none of the commands `ApplyConfig` runs. */
  lemma StartIsNoSetupCommand(log: seq<Command>, authKey: string)
    requires forall i :: 0 <= i < |log| ==> log[i] == StateCommand() || log[i] == JoinCommand(authKey)
    ensures StartK3sCommand() !in log
  {
    assert StartK3sCommand().argv[0] != StateCommand().argv[0];
    assert StartK3sCommand().argv[0] != JoinCommand(authKey).argv[0];
  }

  /** A log that keeps its prefix and gains at most `x`, which it lacked, keeps the prefix; `x` in its tail is the last entry. */
  lemma LogExtended(before: seq<Command>, middle: seq<Command>, after: seq<Command>, x: Command)
    requires |middle| >= |before| && middle[..|before|] == before
    requires x !in middle[|before|..]
    requires after == middle || after == middle + [x]
    ensures |after| >= |before| && after[..|before|] == before
    ensures x in after[|before|..] ==> after == middle + [x]
  {
    if after == middle + [x] {
      assert after[..|before|] == middle[..|before|];
    }
  }

  /**
   * The file system once `cfg` was applied at `/` from `files0` and
   * `dirs0`, with the daemon's answers `ss` and the command replies `rs`:
   * ConnMan's files and directories, and the k3s environment (0666) with
   * the address the daemon gave; nothing else changed.
   */
  predicate AppliedAt(m: Machine, cfg: Config, files0: map<string, FileData>, dirs0: map<string, Attr>,
                      ss: seq<StatusReply>, rs: seq<CmdReply>)
    reads m
  {
    var t := TailscaleTrace(cfg.network.tailscale.authKey, ss, rs);
    var ip := TS.IPPoll(ss[t.statusesUsed..]);
    && ip.result.Ok?
    && m.files == ConfigFiles(files0, cfg, "/", ip.result.value)
    && m.dirs == ConnManDirs(dirs0, cfg.network, "/")
  }

  /**
   * The command log of a start, from `log0`: it only grows; k3s's init
   * script is run only after a successful apply; a successful start ran it
   * last, and a start that failed after a successful apply either is still
   * waiting for a reply or ran the script last and saw it fail.
   */
  predicate StartLogged(log0: seq<Command>, log: seq<Command>, appliedOk: bool, r: Result<()>) {
    && |log| >= |log0| && log[..|log0|] == log0
    && (StartK3sCommand() in log[|log0|..] ==> appliedOk)
    && (r.Ok? ==> appliedOk && log != [] && log[|log| - 1] == StartK3sCommand())
    && (appliedOk && r.Err? ==>
          || r == Err(Waiting("command"))
          || (r.error.ServiceNotStarted? && r.error.service == "k3s" && log != [] && log[|log| - 1] == StartK3sCommand()))
  }

  /**
   * What applying `cfg` at `/` and then starting k3s gives, from a machine
   * with the files `files0`, the directories `dirs0`, the daemon's answers
   * `ss` and the command replies `rs`, on which the network half could
   * (`networkWritable`) and the k3s file could (`envWritable`) be written:
   * a failed apply is returned in the context of the document and leaves
   * what `ConnManLeft` gives; the apply succeeds exactly when
   * `ConfigApplies` says so and then leaves the file system `AppliedAt`
   * gives; the start then succeeds exactly when the next
   * command reply does, and waits when none is left.
   */
  predicate StartOutcome(m: Machine, cfg: Config, cfgPath: string, files0: map<string, FileData>, dirs0: map<string, Attr>,
                         ss: seq<StatusReply>, rs: seq<CmdReply>, networkWritable: bool, envWritable: bool,
                         r: Result<()>, applied: Result<()>)
    reads m
  {
    var used := TailscaleTrace(cfg.network.tailscale.authKey, ss, rs).repliesUsed;
    && (applied.Err? ==> r == Err(Wrapped(ApplyContext(cfgPath), applied.error)))
    && (applied.Err? ==> Disk(m.files, m.dirs) == ConnManLeft(Disk(files0, dirs0), m.faults, cfg.network, "/"))
    && (applied.Ok? <==> ConfigApplies(cfg, networkWritable, ss, rs, envWritable))
    && (applied.Ok? ==> AppliedAt(m, cfg, files0, dirs0, ss, rs))
    && (applied.Ok? && used < |rs| ==> (r.Ok? <==> Succeeded(rs[used])))
    && (applied.Ok? && used == |rs| ==> r == Err(Waiting("command")))
  }

  /** The part of `StartAgent` after the document is read: apply it at `/`, then start k3s. */
  method ApplyAndStart(m: Machine, cfg: Config, cfgPath: string) returns (r: Result<()>, ghost applied: Result<()>)
    modifies m
    ensures StartLogged(old(m.executed), m.executed, applied.Ok?, r)
    ensures StartOutcome(m, cfg, cfgPath, old(m.files), old(m.dirs), old(m.statuses), old(m.replies),
                         old(NetworkWritable(m, cfg.network, "/")), old(m.CanWrite(K3sEnvPath)), r, applied)
  {
    EnvUntouchedOnNode(m, cfg.network);
    var result, _ := ApplyConfig(m, cfg, "/");
    applied := result;
    StartIsNoSetupCommand(m.executed[|old(m.executed)|..], cfg.network.tailscale.authKey);
    if result.Err? {
      return Err(Wrapped(ApplyContext(cfgPath), result.error)), applied;
    }
    ghost var configured := m.executed;
    r := StartService(m, "k3s");
    LogExtended(old(m.executed), configured, m.executed, StartK3sCommand());
  }

  /**
   * `StartAgent`: read the configuration document, apply it at `/`, and
   * start k3s. k3s is started only once the configuration has been applied.
   * `applied` is the outcome of `ApplyConfig`, when the document could be
   * read.
   */
  method StartAgent(m: Machine, cfgPath: string) returns (r: Result<()>, ghost applied: Option<Result<()>>)
    modifies m
    ensures var read := old(m.ReadFile(cfgPath));
      && (read.Err? ==> r == Err(Wrapped(ReadContext(cfgPath), read.error)))
      && (read.Ok? && !read.value.Document? ==> r == Err(Wrapped(ParseContext(cfgPath), Undecodable(cfgPath))))
      && (applied.Some? <==> read.Ok? && read.value.Document?)
    ensures applied.None? ==>
      m.files == old(m.files) && m.dirs == old(m.dirs) && m.statuses == old(m.statuses) && m.executed == old(m.executed)
    ensures StartLogged(old(m.executed), m.executed, applied.Some? && applied.value.Ok?, r)
    ensures applied.Some? ==>
      var cfg := old(m.ReadFile(cfgPath)).value.config;
      StartOutcome(m, cfg, cfgPath, old(m.files), old(m.dirs), old(m.statuses), old(m.replies),
                   old(NetworkWritable(m, cfg.network, "/")), old(m.CanWrite(K3sEnvPath)), r, applied.value)
  {
    var read := m.ReadFile(cfgPath);
    if read.Err? {
      return Err(Wrapped(ReadContext(cfgPath), read.error)), None;
    }
    if !read.value.Document? {
      return Err(Wrapped(ParseContext(cfgPath), Undecodable(cfgPath))), None;
    }
    var cfg := read.value.config;
    ghost var nw, ew := NetworkWritable(m, cfg.network, "/"), m.CanWrite(K3sEnvPath);
    ghost var outcome;
    r, outcome := ApplyAndStart(m, cfg, cfgPath);
    assert StartOutcome(m, cfg, cfgPath, old(m.files), old(m.dirs), old(m.statuses), old(m.replies), nw, ew, r, outcome);
    applied := Some(outcome);
  }
}
