/**
 * The workstation's provisioning logic (internal/client/cluster.go and
 * internal/client/node.go): creating a cluster, choosing its k3s endpoint,
 * and creating a Raspberry Pi 4 node.
 *
 * Three collaborators are oracles given as parameters: the random source
 * (`entropy`, the 32 bytes `crypto/rand` would deliver, or `None` when it
 * fails), the derivation of an OpenSSH public key from the cluster's
 * private key (`derive`), and the writing of the OS image to a disk
 * (`install`, which answers with the reason it failed, if it did).
 */
module Client {
  import opened Errors
  import opened Text
  import Base64
  import opened OsConfig
  import opened Registry

  const RPi4Provider: string := "rpi4"
  const TokenSize: nat := 32

  /** The k3s API endpoint of a host. */
  function Endpoint(host: string): string {
    "https://" + host + ":6443"
  }

  // ------------------------------------------------------------ clusters

  /**
   * `Cluster.SSHAuthorizedKey`: the public key derived from the cluster's
   * private key, then a space, then the cluster's name as the key comment.
   */
  function SSHAuthorizedKey(cluster: Cluster, derive: string -> Result<string>): (r: Result<string>)
    ensures derive(cluster.sshKey).Err? <==> r.Err?
    ensures r.Err? ==> r.error == derive(cluster.sshKey).error
    ensures r.Ok? ==>
      var key := derive(cluster.sshKey).value;
      |r.value| == |key| + 1 + |cluster.name| &&
      r.value[..|key|] == key && r.value[|key|] == ' ' && r.value[|key| + 1..] == cluster.name
  {
    var key :- derive(cluster.sshKey);
    Ok(key + " " + cluster.name)
  }

  /** With a key and a cluster name free of white space, the entry has exactly two fields: the key and the name. */
  lemma {:induction false} AuthorizedKeyFields(key: string, name: string)
    requires key != [] && NoSpace(key) && name != [] && NoSpace(name)
    ensures Fields(key + " " + name) == [key, name]
  {
    assert key + " " + name == key + (" " + name);
    FirstField(key, " " + name);
    SingleField(name);
  }

  lemma SingleField(w: string)
    requires w != [] && NoSpace(w)
    ensures Fields(w) == [w]
    ensures Fields(" " + w) == [w]
  {
    assert TrimLeft(w) == w;
    assert SpanNonSpace(w) == |w|;
    assert w[..|w|] == w && w[|w|..] == [];
    assert (" " + w)[1..] == w;
  }

  /** `generateToken`: the standard base64 encoding of 32 random bytes. */
  function GenerateToken(entropy: Option<seq<bv8>>): (r: Result<string>)
    requires entropy.Some? ==> |entropy.value| == TokenSize
    ensures r.Err? <==> entropy.None?
    ensures r.Err? ==> r.error == RandomSourceFailed
    ensures r.Ok? ==> |r.value| == 44 && r.value[43] == '=' && '=' !in r.value[..43]
    ensures r.Ok? ==> Base64.Decode(r.value) == Some(entropy.value)
  {
    match entropy
    case None => Err(RandomSourceFailed)
    case Some(bytes) =>
      var token := Base64.Encode(bytes);
      Base64.EncodeLength(bytes);
      Base64.EncodePadding(bytes);
      Base64.DecodeEncode(bytes);
      assert forall i :: 0 <= i < 43 ==> token[..43][i] == token[i];
      Ok(token)
  }

  /**
   * `CreateCluster`: refuse a name that is taken, pass on a lookup failure
   * that is not "not found", require an SSH key, draw the token, then save.
   * The new cluster has no server yet.
   */
  method CreateCluster(store: Store, name: string, sshKey: string, entropy: Option<seq<bv8>>)
    returns (r: Result<Cluster>)
    requires store.Valid()
    requires entropy.Some? ==> |entropy.value| == TokenSize
    modifies store
    ensures store.Valid()
    ensures var found := old(store.GetCluster(name));
      && (found.Ok? ==> r == Err(ClusterExists(name)))
      && (found.Err? && !found.error.IsNotFound() ==> r == Err(found.error))
      && (found.Err? && found.error.IsNotFound() && sshKey == "" ==> r == Err(SshKeyRequired))
      && (found.Err? && found.error.IsNotFound() && sshKey != "" && entropy.None? ==> r == Err(RandomSourceFailed))
      && (found.Ok? || !found.error.IsNotFound() || sshKey == "" || entropy.None? ==> unchanged(store))
      && (found.Err? && found.error.IsNotFound() && sshKey != "" && entropy.Some? ==>
            && (r.Ok? <==> store.ClusterSavable(name))
            && store.Snapshot() ==
                 ClusterSaveTree(old(store.Snapshot()), store.root, store.faults, Cluster(name, GenerateToken(entropy).value, sshKey, "")))
    ensures r.Ok? ==> r.value == Cluster(name, GenerateToken(entropy).value, sshKey, "")
    ensures r.Ok? && Fault(Read, ClusterPath(store.root, name)) !in store.faults ==>
      store.GetCluster(name) == Ok(r.value)
    ensures r.Err? ==> store.clusterFiles == old(store.clusterFiles)
    ensures store.nodeEntries == old(store.nodeEntries)
    ensures store.nodeFiles == old(store.nodeFiles) && store.configFiles == old(store.configFiles)
  {
    var found := store.GetCluster(name);
    if found.Ok? {
      return Err(ClusterExists(name));
    } else if !found.error.IsNotFound() {
      return Err(found.error);
    }
    if sshKey == "" {
      return Err(SshKeyRequired);
    }
    var token := GenerateToken(entropy);
    if token.Err? {
      return Err(token.error);
    }
    var cluster := Cluster(name, token.value, sshKey, "");
    var saved := store.SaveCluster(cluster);
    if saved.Err? {
      return Err(saved.error);
    }
    return Ok(cluster);
  }

  // ------------------------------------------------------- server choice

  /** The first node with `role`, if any. */
  function FirstWithRole(nodes: seq<Node>, role: string): (r: Option<nat>)
    ensures r.Some? ==> r.value < |nodes| && nodes[r.value].Role() == role
    ensures r.Some? ==> forall j :: 0 <= j < r.value ==> nodes[j].Role() != role
    ensures r.None? ==> forall j :: 0 <= j < |nodes| ==> nodes[j].Role() != role
    decreases |nodes|
  {
    if nodes == [] then None
    else if nodes[0].Role() == role then Some(0)
    else match FirstWithRole(nodes[1..], role)
      case None => None
      case Some(i) => Some(i + 1)
  }

  /** The last node with `role`, if any. */
  function LastWithRole(nodes: seq<Node>, role: string): (r: Option<nat>)
    ensures r.Some? ==> r.value < |nodes| && nodes[r.value].Role() == role
    ensures r.Some? ==> forall j :: r.value < j < |nodes| ==> nodes[j].Role() != role
    ensures r.None? ==> forall j :: 0 <= j < |nodes| ==> nodes[j].Role() != role
    decreases |nodes|
  {
    if nodes == [] then None
    else if nodes[|nodes| - 1].Role() == role then Some(|nodes| - 1)
    else LastWithRole(nodes[..|nodes| - 1], role)
  }

  /**
   * The node whose host is the cluster's endpoint: the first `cluster-init`
   * node in listing order, else the last `control-plane` node.
   */
  function ServerIndex(nodes: seq<Node>): (r: Option<nat>)
    ensures r.Some? ==> r.value < |nodes|
    ensures r.Some? ==> nodes[r.value].Role() in {ClusterInitRole, ControlPlaneRole}
    ensures r.None? <==> forall j :: 0 <= j < |nodes| ==> nodes[j].Role() !in {ClusterInitRole, ControlPlaneRole}
  {
    match FirstWithRole(nodes, ClusterInitRole)
    case Some(i) => Some(i)
    case None => LastWithRole(nodes, ControlPlaneRole)
  }

  /** A `cluster-init` node wins wherever it stands, even behind control-plane nodes. */
  lemma ClusterInitWins(nodes: seq<Node>, i: nat)
    requires i < |nodes| && nodes[i].Role() == ClusterInitRole
    requires forall j :: 0 <= j < i ==> nodes[j].Role() != ClusterInitRole
    ensures ServerIndex(nodes) == Some(i)
  {
    var f := FirstWithRole(nodes, ClusterInitRole);
    assert f.Some?;
  }

  /** The endpoint `ClusterServer` answers for a listing. */
  function ServerFor(clusterName: string, nodes: seq<Node>): (r: Result<string>)
    ensures r.Err? <==> ServerIndex(nodes).None?
    ensures r.Err? ==> r.error == NoControlPlaneNodes(clusterName)
    ensures r.Ok? ==> r.value == Endpoint(nodes[ServerIndex(nodes).value].Host())
  {
    match ServerIndex(nodes)
    case None => Err(NoControlPlaneNodes(clusterName))
    case Some(i) => Ok(Endpoint(nodes[i].Host()))
  }

  /**
   * The scan of `ClusterServer`, with `cpNode` pointing at the element it
   * was taken from (the loop variable is a fresh variable per iteration).
   */
  method ChooseServer(nodes: seq<Node>) returns (cp: Option<nat>)
    ensures cp == ServerIndex(nodes)
  {
    cp := None;
    var i := 0;
    while i < |nodes|
      invariant 0 <= i <= |nodes|
      invariant forall j :: 0 <= j < i ==> nodes[j].Role() != ClusterInitRole
      invariant cp == LastWithRole(nodes[..i], ControlPlaneRole)
    {
      assert nodes[..i + 1][..i] == nodes[..i];
      if nodes[i].Role() == ClusterInitRole {
        cp := Some(i);
        ClusterInitWins(nodes, i);
        return;
      } else if nodes[i].Role() == ControlPlaneRole {
        cp := Some(i);
      }
      i := i + 1;
    }
    assert nodes[..i] == nodes;
    assert FirstWithRole(nodes, ClusterInitRole).None?;
  }

  /**
   * `ClusterServer` as written: look the cluster up, list its nodes with
   * `ListNodes`, pick the endpoint (the scan as Go 1.22 and later run it).
   */
  method ClusterServer(store: Store, name: string) returns (r: Result<string>)
    ensures var c := store.GetCluster(name);
      && (c.Err? ==> r == Err(c.error))
      && (c.Ok? && store.NodeListing(c.value.name).Err? ==> r == Err(store.NodeListing(c.value.name).error))
      && (c.Ok? && store.NodeListing(c.value.name).Ok? ==>
            r == ServerFor(c.value.name, store.NodeListing(c.value.name).value))
  {
    var c := store.GetCluster(name);
    if c.Err? {
      return Err(c.error);
    }
    var cluster := c.value;
    var listed := store.ListNodes(cluster.name);
    if listed.Err? {
      return Err(listed.error);
    }
    r := ServerOf(cluster.name, listed.value);
  }

  /**
   * `ClusterServer` as evidently intended: a cluster without a nodes
   * directory has no nodes, and the endpoint is taken from the node the scan
   * stopped at.
   */
  method ClusterServerCorrected(store: Store, name: string) returns (r: Result<string>)
    ensures var c := store.GetCluster(name);
      && (c.Err? ==> r == Err(c.error))
      && (c.Ok? && store.NodeListingCorrected(c.value.name).Err? ==>
            r == Err(store.NodeListingCorrected(c.value.name).error))
      && (c.Ok? && store.NodeListingCorrected(c.value.name).Ok? ==>
            r == ServerFor(c.value.name, store.NodeListingCorrected(c.value.name).value))
  {
    var c := store.GetCluster(name);
    if c.Err? {
      return Err(c.error);
    }
    var cluster := c.value;
    var listed := store.ListNodesCorrected(cluster.name);
    if listed.Err? {
      return Err(listed.error);
    }
    r := ServerOf(cluster.name, listed.value);
  }

  /** The endpoint of a listing, by the scan of `ClusterServer`. */
  method ServerOf(clusterName: string, nodes: seq<Node>) returns (r: Result<string>)
    ensures r == ServerFor(clusterName, nodes)
  {
    var cp := ChooseServer(nodes);
    if cp.None? {
      return Err(NoControlPlaneNodes(clusterName));
    }
    return Ok(Endpoint(nodes[cp.value].Host()));
  }

  /**
   * The scan as written for Go before 1.22, where `&node` is the address of
   * the one loop variable: after a loop that ends without `break` it holds
   * the last node, whatever its role.
   */
  function ServerIndexAsWritten(nodes: seq<Node>): (r: Option<nat>)
    ensures r.Some? ==> r.value < |nodes|
    ensures ServerIndex(nodes).None? <==> r.None?
  {
    match FirstWithRole(nodes, ClusterInitRole)
    case Some(i) => Some(i)
    case None => if LastWithRole(nodes, ControlPlaneRole).Some? then Some(|nodes| - 1) else None
  }

  /** A control-plane node listed before a worker: as written, the worker becomes the endpoint. */
  lemma AliasedServerPicksWorker(cp: Node, worker: Node)
    requires cp.Role() == ControlPlaneRole && worker.Role() == WorkerRole
    ensures ServerIndexAsWritten([cp, worker]) == Some(1)
    ensures ServerIndex([cp, worker]) == Some(0)
    ensures [cp, worker][1].Role() !in {ClusterInitRole, ControlPlaneRole}
  {
    assert [cp, worker][1..] == [worker];
    assert [cp, worker][..1] == [cp];
  }

  // ----------------------------------------------------------------- nodes

  datatype NodeRequest = NodeRequest(
    name: string,
    clusterName: string,
    controlPlane: bool,
    wifiName: string,
    wifiPassword: string,
    tailscaleAuthKey: string,
    image: string,
    installDevice: string)

  /** `validateNodeName`: only a "not found" answer frees the name. */
  function ValidateNodeName(store: Store, cluster: string, name: string): (r: Result<()>)
    reads store
    ensures var found := store.GetNode(cluster, name);
      && (r.Ok? <==> found.Err? && found.error.IsNotFound())
      && (found.Ok? ==> r == Err(NodeNameInUse(name, cluster)))
      && (found.Err? && !found.error.IsNotFound() ==> r == Err(found.error))
  {
    var found := store.GetNode(cluster, name);
    if found.Ok? then Err(NodeNameInUse(name, cluster))
    else if !found.error.IsNotFound() then Err(found.error)
    else Ok(())
  }

  /**
   * The k3s section of a new node: the first node must be a control-plane
   * node and initialises the cluster; later nodes join the cluster's server.
   */
  function K3sFor(hasNodes: bool, controlPlane: bool, cluster: Cluster): (r: Result<K3s>)
    ensures r.Err? <==> !hasNodes && !controlPlane
    ensures r.Err? ==> r.error == FirstNodeMustBeControlPlane
    ensures r.Ok? ==> IsKnownRole(r.value.role) && r.value.token == cluster.token
    ensures r.Ok? ==> (r.value.role == ClusterInitRole <==> !hasNodes)
    ensures r.Ok? ==> (r.value.role == WorkerRole <==> !controlPlane)
    ensures r.Ok? ==> r.value.server == (if hasNodes then cluster.server else "")
  {
    if !hasNodes then
      if !controlPlane then Err(FirstNodeMustBeControlPlane)
      else Ok(K3s(ClusterInitRole, "", cluster.token))
    else
      Ok(K3s(if controlPlane then ControlPlaneRole else WorkerRole, cluster.server, cluster.token))
  }

  /** The OS configuration document written to the new node's boot partition. */
  function NodeConfig(req: NodeRequest, clusterName: string, authorizedKey: string, k3s: K3s): Config {
    Config(
      req.name + "-" + clusterName,
      "",
      [authorizedKey],
      Network(
        if req.wifiName != "" then Wifi(req.wifiName, req.wifiPassword) else Wifi("", ""),
        Tailscale(req.tailscaleAuthKey)),
      k3s)
  }

  /**
   * What the document promises the node: its host name, one authorized key,
   * the k3s section, and a Wi-Fi section that never has a password without
   * a network name.
   */
  lemma NodeConfigContents(req: NodeRequest, clusterName: string, authorizedKey: string, k3s: K3s)
    ensures var c := NodeConfig(req, clusterName, authorizedKey, k3s);
      && c.hostname == req.name + "-" + clusterName
      && c.sshAuthorizedKeys == [authorizedKey]
      && c.k3s == k3s && c.network.tailscale.authKey == req.tailscaleAuthKey
      && (c.network.wifi.name == "" ==> c.network.wifi.password == "")
      && (c.network.wifi.name == req.wifiName)
      && (req.wifiName != "" ==> c.network.wifi.password == req.wifiPassword)
  {
  }

  /** At most one node of `cluster` has a configuration with the `cluster-init` role. */
  predicate IsClusterInit(configs: map<(string, string), File<Config>>, cluster: string, node: string) {
    && (cluster, node) in configs
    && configs[(cluster, node)].content.Encoded?
    && configs[(cluster, node)].content.value.k3s.role == ClusterInitRole
  }

  ghost predicate SingleClusterInit(configs: map<(string, string), File<Config>>, cluster: string) {
    forall n1, n2 :: IsClusterInit(configs, cluster, n1) && IsClusterInit(configs, cluster, n2) ==> n1 == n2
  }

  /** Writing one configuration keeps a single `cluster-init` node, when a `cluster-init` one goes into an empty cluster. */
  lemma StoredKeepsSingleClusterInit(
    configs: map<(string, string), File<Config>>, key: (string, string), cfg: Config, perm: int, cluster: string)
    requires SingleClusterInit(configs, cluster)
    requires cfg.k3s.role == ClusterInitRole && key.0 == cluster ==> forall n :: (cluster, n) !in configs
    ensures SingleClusterInit(Stored(configs, key, cfg, perm), cluster)
  {
    var after := Stored(configs, key, cfg, perm);
    forall n1, n2 | IsClusterInit(after, cluster, n1) && IsClusterInit(after, cluster, n2)
      ensures n1 == n2
    {
      if (cluster, n1) != key && (cluster, n2) != key {
        assert IsClusterInit(configs, cluster, n1) && IsClusterInit(configs, cluster, n2);
      }
    }
  }

  /**
   * The node `CreateRPi4Node` sets out to create, decided before anything is
   * written: look up the cluster, check the name, derive the authorized
   * key, list the existing nodes (as written, or by the corrected listing),
   * choose the k3s role, and build the document.
   */
  function NodePlan(store: Store, req: NodeRequest, derive: string -> Result<string>, corrected: bool): (r: Result<Node>)
    reads store
    ensures store.GetCluster(req.clusterName).Err? ==> r == Err(store.GetCluster(req.clusterName).error)
    ensures r.Ok? ==>
      var c := store.GetCluster(req.clusterName).value;
      var listed := if corrected then store.NodeListingCorrected(c.name) else store.NodeListing(c.name);
      && store.GetCluster(req.clusterName).Ok?
      && store.GetNode(c.name, req.name).Err? && store.GetNode(c.name, req.name).error.IsNotFound()
      && derive(c.sshKey).Ok? && listed.Ok?
      && r.value.name == req.name && r.value.clusterName == req.clusterName && r.value.provider == RPi4Provider
      && r.value.Host() == req.name + "-" + c.name
      && r.value.osConfig.sshAuthorizedKeys == [SSHAuthorizedKey(c, derive).value]
      && r.value.osConfig.k3s.token == c.token
      && (r.value.Role() == ClusterInitRole <==> listed.value == [])
      && (r.value.Role() == WorkerRole <==> !req.controlPlane)
    ensures r.Err? && store.GetCluster(req.clusterName).Ok? ==>
      var c := store.GetCluster(req.clusterName).value;
      var listed := if corrected then store.NodeListingCorrected(c.name) else store.NodeListing(c.name);
      || ValidateNodeName(store, c.name, req.name).Err?
      || derive(c.sshKey).Err?
      || listed.Err?
      || (listed.value == [] && !req.controlPlane && r.error == FirstNodeMustBeControlPlane)
  {
    var c :- store.GetCluster(req.clusterName);
    var valid := ValidateNodeName(store, c.name, req.name);
    if valid.Err? then Err(valid.error) else
    var key :- SSHAuthorizedKey(c, derive);
    var nodes :- if corrected then store.NodeListingCorrected(c.name) else store.NodeListing(c.name);
    var k3s :- K3sFor(nodes != [], req.controlPlane, c);
    Ok(Node(req.name, req.clusterName, RPi4Provider, NodeConfig(req, c.name, key, k3s)))
  }

  /**
   * `CreateRPi4Node` as written: the nodes are listed with `ListNodes`, so
   * a cluster without a nodes directory (every new cluster) gets no node.
   */
  method CreateRPi4Node(
    store: Store, req: NodeRequest,
    derive: string -> Result<string>,
    install: (string, Config, string) -> Option<string>)
    returns (r: Result<Node>)
    requires store.Valid()
    modifies store
    ensures store.Valid()
    ensures var plan := old(NodePlan(store, req, derive, false));
      && (plan.Err? ==> r == Err(plan.error) && unchanged(store))
      && (plan.Ok? ==>
            Provisioned(store, req, install, old(store.GetCluster(req.clusterName)).value, plan.value, r, old(store.Snapshot())))
    ensures r.Ok? ==>
      var c := old(store.GetCluster(req.clusterName)).value;
      if r.value.Role() == ClusterInitRole
      then store.clusterFiles == Stored(old(store.clusterFiles), c.name, c.(server := Endpoint(r.value.Host())), Perm0600)
      else store.clusterFiles == old(store.clusterFiles)
    ensures r.Err? && !(r.error.IoFailure? && r.error.op in {Mkdir, Write}) ==> unchanged(store)
    ensures store.clusterFiles != old(store.clusterFiles) ==> r.Ok? && r.value.Role() == ClusterInitRole
    ensures forall k :: old(SingleClusterInit(store.configFiles, k)) ==> SingleClusterInit(store.configFiles, k)
  {
    var found := store.GetCluster(req.clusterName);
    if found.Err? {
      return Err(found.error);
    }
    var cluster := found.value;
    var valid := ValidateNodeName(store, cluster.name, req.name);
    if valid.Err? {
      return Err(valid.error);
    }
    var sshKey := SSHAuthorizedKey(cluster, derive);
    if sshKey.Err? {
      return Err(sshKey.error);
    }
    var listed := store.ListNodes(cluster.name);
    if listed.Err? {
      return Err(listed.error);
    }
    r := ProvisionNode(store, req, cluster, sshKey.value, listed.value, install);
  }

  /** `CreateRPi4Node` as evidently intended: a cluster without a nodes directory has no nodes yet. */
  method CreateRPi4NodeCorrected(
    store: Store, req: NodeRequest,
    derive: string -> Result<string>,
    install: (string, Config, string) -> Option<string>)
    returns (r: Result<Node>)
    requires store.Valid()
    modifies store
    ensures store.Valid()
    ensures var plan := old(NodePlan(store, req, derive, true));
      && (plan.Err? ==> r == Err(plan.error) && unchanged(store))
      && (plan.Ok? ==>
            Provisioned(store, req, install, old(store.GetCluster(req.clusterName)).value, plan.value, r, old(store.Snapshot())))
    ensures r.Ok? ==>
      var c := old(store.GetCluster(req.clusterName)).value;
      if r.value.Role() == ClusterInitRole
      then store.clusterFiles == Stored(old(store.clusterFiles), c.name, c.(server := Endpoint(r.value.Host())), Perm0600)
      else store.clusterFiles == old(store.clusterFiles)
    ensures r.Err? && !(r.error.IoFailure? && r.error.op in {Mkdir, Write}) ==> unchanged(store)
    ensures store.clusterFiles != old(store.clusterFiles) ==> r.Ok? && r.value.Role() == ClusterInitRole
    ensures forall k :: old(SingleClusterInit(store.configFiles, k)) ==> SingleClusterInit(store.configFiles, k)
  {
    var found := store.GetCluster(req.clusterName);
    if found.Err? {
      return Err(found.error);
    }
    var cluster := found.value;
    var valid := ValidateNodeName(store, cluster.name, req.name);
    if valid.Err? {
      return Err(valid.error);
    }
    var sshKey := SSHAuthorizedKey(cluster, derive);
    if sshKey.Err? {
      return Err(sshKey.error);
    }
    var listed := store.ListNodesCorrected(cluster.name);
    if listed.Err? {
      return Err(listed.error);
    }
    r := ProvisionNode(store, req, cluster, sshKey.value, listed.value, install);
  }

  /**
   * The tree the writing half of `CreateRPi4Node` leaves for a planned node
   * whose image was written: the node as `SaveNode` leaves it, then, for the
   * node that initialises the cluster once the node is saved, the cluster
   * with the node's endpoint as `SaveCluster` leaves it.
   */
  function ProvisionedTree(store: Store, t: Tree, c: Cluster, node: Node): Tree
    requires ValidTree(t)
  {
    var saved := NodeSaveTree(t, store.root, store.faults, c.name, node);
    if node.Role() == ClusterInitRole && store.NodeSavable(c.name, node.name)
    then ClusterSaveTree(saved, store.root, store.faults, c.(server := Endpoint(node.Host())))
    else saved
  }

  /**
   * What the writing half of `CreateRPi4Node` gives for a planned node,
   * from the tree `before`: a refused image changes nothing; otherwise the
   * store ends as `ProvisionedTree` says (the node saved before the
   * cluster, each as far as the faults allow), it succeeds exactly when the
   * node can be saved and, for the node that initialises the cluster, the
   * cluster too, and then the node reads back as planned.
   */
  ghost predicate Provisioned(store: Store, req: NodeRequest, install: (string, Config, string) -> Option<string>,
                              c: Cluster, node: Node, r: Result<Node>, before: Tree)
    reads store
  {
    var failure := install(req.image, node.osConfig, req.installDevice);
    && (failure.Some? ==> r == Err(ImageInstallFailed(failure.value)) && store.Snapshot() == before)
    && (failure.None? ==> ValidTree(before) && store.Snapshot() == ProvisionedTree(store, before, c, node))
    && (failure.None? ==>
          (r.Ok? <==> store.NodeSavable(c.name, node.name) && (node.Role() == ClusterInitRole ==> store.ClusterSavable(c.name))))
    && (r.Ok? ==> r.value == node)
    && (r.Ok? && Fault(Read, NodeFilePath(store.root, c.name, node.name)) !in store.faults
              && Fault(Read, OsConfigPath(store.root, c.name, node.name)) !in store.faults ==>
          store.GetNode(c.name, node.name) == Ok(node))
  }

  /**
   * The writing half of `CreateRPi4Node`, once the cluster, the key and the
   * listing are known: choose the role, build the document, write the
   * image, save the node and, for the node that initialises the cluster,
   * record its endpoint on the cluster.
   */
  method ProvisionNode(
    store: Store, req: NodeRequest, cluster: Cluster, authorizedKey: string, nodes: seq<Node>,
    install: (string, Config, string) -> Option<string>)
    returns (r: Result<Node>)
    requires store.Valid()
    requires store.NodeListingCorrected(cluster.name) == Ok(nodes)
    modifies store
    ensures store.Valid()
    ensures var k3s := K3sFor(nodes != [], req.controlPlane, cluster);
      && (k3s.Err? ==> r == Err(k3s.error) && unchanged(store))
      && (k3s.Ok? ==>
            Provisioned(store, req, install, cluster,
              Node(req.name, req.clusterName, RPi4Provider, NodeConfig(req, cluster.name, authorizedKey, k3s.value)), r,
              old(store.Snapshot())))
    ensures r.Err? && r.error.ImageInstallFailed? ==> unchanged(store)
    ensures r.Ok? ==>
      if r.value.Role() == ClusterInitRole
      then store.clusterFiles == Stored(old(store.clusterFiles), cluster.name, cluster.(server := Endpoint(r.value.Host())), Perm0600)
      else store.clusterFiles == old(store.clusterFiles)
    ensures r.Err? && !(r.error.IoFailure? && r.error.op in {Mkdir, Write}) ==> unchanged(store)
    ensures store.clusterFiles != old(store.clusterFiles) ==> r.Ok? && r.value.Role() == ClusterInitRole
    ensures forall k :: old(SingleClusterInit(store.configFiles, k)) ==> SingleClusterInit(store.configFiles, k)
  {
    var k3s := K3sFor(nodes != [], req.controlPlane, cluster);
    if k3s.Err? {
      return Err(k3s.error);
    }
    var osConfig := NodeConfig(req, cluster.name, authorizedKey, k3s.value);
    var node := Node(req.name, req.clusterName, RPi4Provider, osConfig);
    var failure := install(req.image, osConfig, req.installDevice);
    if failure.Some? {
      return Err(ImageInstallFailed(failure.value));
    }
    ghost var configsBefore := store.configFiles;
    EmptyListingHasNoConfigs(store, cluster.name, nodes);
    var saved := store.SaveNode(cluster.name, node);
    forall k | SingleClusterInit(configsBefore, k) ensures SingleClusterInit(store.configFiles, k) {
      if store.configFiles != configsBefore {
        StoredKeepsSingleClusterInit(configsBefore, (cluster.name, node.name), osConfig, Perm0600, k);
      }
    }
    if saved.Err? {
      return Err(saved.error);
    }
    if node.Role() == ClusterInitRole {
      var updated := cluster.(server := Endpoint(node.Host()));
      var recorded := store.SaveCluster(updated);
      if recorded.Err? {
        return Err(recorded.error);
      }
    }
    return Ok(node);
  }

  /**
   * For a cluster that has no nodes directory yet, the plan as written stops
   * at the listing, while the corrected plan makes a control-plane request
   * the node that initialises the cluster.
   */
  lemma FirstNodePlans(store: Store, req: NodeRequest, derive: string -> Result<string>)
    ensures var c := store.GetCluster(req.clusterName);
      c.Ok? && c.value.name !in store.nodeEntries && Fault(ReadDir, NodesDir(store.root, c.value.name)) !in store.faults &&
      ValidateNodeName(store, c.value.name, req.name).Ok? && derive(c.value.sshKey).Ok? ==>
        && NodePlan(store, req, derive, false) == Err(NotExist(NodesDir(store.root, c.value.name)))
        && (req.controlPlane ==>
              NodePlan(store, req, derive, true).Ok? && NodePlan(store, req, derive, true).value.Role() == ClusterInitRole)
        && (!req.controlPlane ==> NodePlan(store, req, derive, true) == Err(FirstNodeMustBeControlPlane))
  {
  }

  /** A cluster whose listing is empty has no stored node configurations. */
  lemma EmptyListingHasNoConfigs(store: Store, cluster: string, listed: seq<Node>)
    requires store.Valid()
    requires store.NodeListingCorrected(cluster) == Ok(listed)
    ensures listed == [] ==> forall n :: (cluster, n) !in store.configFiles
  {
    if listed == [] && cluster in store.nodeEntries {
      store.NodeListingEntries(cluster);
    }
  }

  // ------------------------------------------------------------- scenarios

  const DemoRoot: string := "/home/pi/.homecloud"

  /**
   * A cluster just created has no nodes directory: as written the listing
   * of its nodes fails, so its first node cannot be created; the corrected
   * listing is empty.
   */
  method FreshClusterListing() returns (asWritten: Result<seq<Node>>, corrected: Result<seq<Node>>)
    ensures asWritten == Err(NotExist(NodesDir(DemoRoot, "demo")))
    ensures corrected == Ok([])
  {
    var store := new Store(DemoRoot, {});
    var saved := store.SaveCluster(Cluster("demo", "token", "key", ""));
    asWritten := store.ListNodes("demo");
    corrected := store.ListNodesCorrected("demo");
  }
}
