/**
 * The workstation's registry of clusters and nodes (internal/client/store.go).
 *
 * The Go `Store` is a handle on a directory; the state it changes is that
 * directory's tree:
 *
 *   <root>/clusters/<cluster>/cluster.json
 *   <root>/clusters/<cluster>/nodes/<node>/node.json
 *   <root>/clusters/<cluster>/nodes/<node>/hcos.yaml
 *
 * Here the class `Store` holds that tree in its fields, keyed by the names
 * the paths are built from; the path functions below say which file a key
 * stands for. A directory listing is a strictly sorted sequence of names,
 * because `os.ReadDir` returns entries sorted by file name. A file's
 * content is either a decodable document or garbage (`Garbled`), and every
 * file keeps the permission bits it was created with.
 */
module Registry {
  import opened Errors
  import opened Text
  import opened OsConfig

  const StoreDirName: string := ".homecloud"
  const ClustersDirName: string := "clusters"
  const NodesDirName: string := "nodes"
  const ClusterFileName: string := "cluster.json"
  const NodeFileName: string := "node.json"
  const OsConfigFileName: string := "hcos.yaml"

  /** The record in cluster.json. `server` is the k3s endpoint, empty until the first node is created. */
  datatype Cluster = Cluster(name: string, token: string, sshKey: string, server: string)

  /** What node.json holds: the node without its OS configuration. */
  datatype NodeMeta = NodeMeta(name: string, clusterName: string, provider: string)

  datatype Node = Node(name: string, clusterName: string, provider: string, osConfig: Config) {
    function Role(): string {
      osConfig.k3s.role
    }

    function Host(): string {
      osConfig.hostname
    }

    function Meta(): NodeMeta {
      NodeMeta(name, clusterName, provider)
    }
  }

  datatype Content<T> = Encoded(value: T) | Garbled

  datatype File<T> = File(content: Content<T>, mode: int)

  /**
   * `os.WriteFile(path, data, perm)` on the file for key `k`: the content is
   * replaced; `perm` is used only when the file is created.
   */
  function Stored<K(==), T>(files: map<K, File<T>>, k: K, v: T, perm: int): (m: map<K, File<T>>)
    ensures k in m && m[k].content == Encoded(v)
    ensures m[k].mode == (if k in files then files[k].mode else perm)
    ensures forall k' :: k' in files && k' != k ==> k' in m && m[k'] == files[k']
    ensures forall k' :: k' in m ==> k' in files || k' == k
  {
    files[k := File(Encoded(v), if k in files then files[k].mode else perm)]
  }

  // ---------------------------------------------------------------- paths

  /** `getDefaultDir`: `.homecloud` under the home directory, or under the working directory when there is none. */
  function DefaultDir(home: Option<string>): string {
    JoinPath(if home.Some? then home.value else "", StoreDirName)
  }

  function StoreRoot(rootDir: string, home: Option<string>): string {
    if rootDir == "" then DefaultDir(home) else rootDir
  }

  function ClustersDir(root: string): string {
    JoinPath(root, ClustersDirName)
  }

  function ClusterDir(root: string, cluster: string): string {
    JoinPath(ClustersDir(root), cluster)
  }

  function ClusterPath(root: string, cluster: string): string {
    JoinPath(ClusterDir(root, cluster), ClusterFileName)
  }

  function NodesDir(root: string, cluster: string): string {
    JoinPath(ClusterDir(root, cluster), NodesDirName)
  }

  function NodeDir(root: string, cluster: string, node: string): string {
    JoinPath(NodesDir(root, cluster), node)
  }

  function NodeFilePath(root: string, cluster: string, node: string): string {
    JoinPath(NodeDir(root, cluster, node), NodeFileName)
  }

  function OsConfigPath(root: string, cluster: string, node: string): string {
    JoinPath(NodeDir(root, cluster, node), OsConfigFileName)
  }

  /** A name that is one path element. */
  predicate PlainName(s: string) {
    s != [] && '/' !in s
  }

  /** A root without a trailing slash. */
  predicate PlainRoot(s: string) {
    s != [] && s[|s| - 1] != '/'
  }

  /** For plain names the paths are the layout drawn at the top of this module. */
  lemma PathLayout(root: string, cluster: string, node: string)
    requires PlainRoot(root) && PlainName(cluster) && PlainName(node)
    ensures ClusterPath(root, cluster) == root + "/clusters/" + cluster + "/cluster.json"
    ensures NodeDir(root, cluster, node) == root + "/clusters/" + cluster + "/nodes/" + node
  {
    assert ClustersDir(root) == root + "/clusters";
    assert ClusterDir(root, cluster) == root + "/clusters/" + cluster;
    assert NodesDir(root, cluster) == root + "/clusters/" + cluster + "/nodes";
  }

  /** Distinct (cluster, node) name pairs never share a node directory, so keying the tree by names loses nothing. */
  lemma NodeDirInjective(root: string, c1: string, n1: string, c2: string, n2: string)
    requires PlainRoot(root) && PlainName(c1) && PlainName(n1) && PlainName(c2) && PlainName(n2)
    requires NodeDir(root, c1, n1) == NodeDir(root, c2, n2)
    ensures c1 == c2 && n1 == n2
  {
    var p := root + "/clusters/";
    var t1, t2 := c1 + "/" + ("nodes/" + n1), c2 + "/" + ("nodes/" + n2);
    NodeDirSplit(root, c1, n1);
    NodeDirSplit(root, c2, n2);
    assert t1 == (p + t1)[|p|..] && t2 == (p + t2)[|p|..];
    NameSplit(c1, "nodes/" + n1, c2, "nodes/" + n2);
    assert n1 == ("nodes/" + n1)[6..] && n2 == ("nodes/" + n2)[6..];
  }

  /** A node directory is the clusters directory followed by the cluster's part of the path. */
  lemma NodeDirSplit(root: string, c: string, n: string)
    requires PlainRoot(root) && PlainName(c) && PlainName(n)
    ensures NodeDir(root, c, n) == (root + "/clusters/") + (c + "/" + ("nodes/" + n))
  {
    PathLayout(root, c, n);
    var p, q := root + "/clusters/", "nodes/" + n;
    assert p + c + "/nodes/" + n == p + c + "/" + q;
    assert p + c + "/" + q == p + (c + "/" + q);
  }

  /** A leading path element without slashes is determined by the string it starts. */
  lemma NameSplit(c1: string, r1: string, c2: string, r2: string)
    requires '/' !in c1 && '/' !in c2
    requires c1 + "/" + r1 == c2 + "/" + r2
    ensures c1 == c2 && r1 == r2
  {
    var s := c1 + "/" + r1;
    SlashAfterName(c1, r1);
    SlashAfterName(c2, r2);
    assert c1 == s[..|c1|] && c2 == s[..|c2|];
    assert r1 == s[|c1| + 1..] && r2 == s[|c2| + 1..];
  }

  lemma SlashAfterName(c: string, rest: string)
    requires '/' !in c
    ensures FindChar(c + "/" + rest, '/') == |c|
  {
    var s := c + "/" + rest;
    assert forall j :: 0 <= j < |c| ==> s[j] == c[j];
    assert s[|c|] == '/';
  }

  // ---------------------------------------------------------------- store

  function EntriesOf(m: map<string, seq<string>>, k: string): seq<string> {
    if k in m then m[k] else []
  }

  /** What lies under the store's root: the same parts the store keeps. */
  datatype Tree = Tree(
    hasClustersDir: bool,
    clusterEntries: seq<string>,
    clusterFiles: map<string, File<Cluster>>,
    nodeEntries: map<string, seq<string>>,
    nodeFiles: map<(string, string), File<NodeMeta>>,
    configFiles: map<(string, string), File<Config>>)

  /** Every file lies in a directory that exists, and every listing is in name order. */
  predicate ValidTree(t: Tree) {
    && Sorted(t.clusterEntries)
    && (t.clusterEntries != [] ==> t.hasClustersDir)
    && (forall c :: c in t.clusterFiles ==> c in t.clusterEntries)
    && (forall c :: c in t.nodeEntries ==> c in t.clusterEntries && Sorted(t.nodeEntries[c]))
    && (forall k :: k in t.nodeFiles ==> k.0 in t.nodeEntries && k.1 in t.nodeEntries[k.0])
    && (forall k :: k in t.configFiles ==> k.0 in t.nodeEntries && k.1 in t.nodeEntries[k.0])
  }

  /**
   * The tree `SaveCluster` leaves for `cluster`: unchanged when its
   * directory cannot be made; otherwise the directory is listed, and
   * cluster.json is written (0600 when it is created) unless that is
   * refused. Every other record is kept.
   */
  function ClusterSaveTree(t: Tree, root: string, faults: set<Fault>, cluster: Cluster): (r: Tree)
    requires ValidTree(t)
    ensures ValidTree(r)
    ensures r.nodeEntries == t.nodeEntries && r.nodeFiles == t.nodeFiles && r.configFiles == t.configFiles
    ensures forall c :: c != cluster.name ==>
      (c in r.clusterFiles <==> c in t.clusterFiles) && (c in t.clusterFiles ==> r.clusterFiles[c] == t.clusterFiles[c])
    ensures forall c :: c in t.clusterEntries ==> c in r.clusterEntries
  {
    if Fault(Mkdir, ClusterDir(root, cluster.name)) in faults then t
    else
      var made := t.(hasClustersDir := true, clusterEntries := InsertSorted(t.clusterEntries, cluster.name));
      if Fault(Write, ClusterPath(root, cluster.name)) in faults then made
      else made.(clusterFiles := Stored(t.clusterFiles, cluster.name, cluster, Perm0600))
  }

  /**
   * The tree `SaveNode` leaves for `node` of `cluster`: unchanged when the
   * node's directory cannot be made; otherwise the cluster and the node
   * are listed, node.json is written (0644 when created) unless that is
   * refused, and only then hcos.yaml (0600 when created) unless that is
   * refused. Every other record is kept.
   */
  function NodeSaveTree(t: Tree, root: string, faults: set<Fault>, cluster: string, node: Node): (r: Tree)
    requires ValidTree(t)
    ensures ValidTree(r)
    ensures r.clusterFiles == t.clusterFiles
    ensures forall k :: k != (cluster, node.name) ==>
      && (k in r.nodeFiles <==> k in t.nodeFiles) && (k in t.nodeFiles ==> r.nodeFiles[k] == t.nodeFiles[k])
      && (k in r.configFiles <==> k in t.configFiles) && (k in t.configFiles ==> r.configFiles[k] == t.configFiles[k])
    ensures forall c :: c in t.clusterEntries ==> c in r.clusterEntries
  {
    var key := (cluster, node.name);
    if Fault(Mkdir, NodeDir(root, cluster, node.name)) in faults then t
    else
      var made := NodeListed(t, cluster, node.name);
      if Fault(Write, NodeFilePath(root, cluster, node.name)) in faults then made
      else
        var described := made.(nodeFiles := Stored(t.nodeFiles, key, node.Meta(), Perm0644));
        if Fault(Write, OsConfigPath(root, cluster, node.name)) in faults then described
        else described.(configFiles := Stored(t.configFiles, key, node.osConfig, Perm0600))
  }

  /** The tree once a node's directory was made: the cluster and the node are listed, and no file changes. */
  function NodeListed(t: Tree, cluster: string, name: string): (r: Tree)
    requires ValidTree(t)
    ensures ValidTree(r)
    ensures cluster in r.nodeEntries && name in r.nodeEntries[cluster]
    ensures forall c :: c in t.clusterEntries ==> c in r.clusterEntries
    ensures r.clusterFiles == t.clusterFiles && r.nodeFiles == t.nodeFiles && r.configFiles == t.configFiles
  {
    var entries := InsertSorted(EntriesOf(t.nodeEntries, cluster), name);
    var r := t.(hasClustersDir := true, clusterEntries := InsertSorted(t.clusterEntries, cluster),
                nodeEntries := t.nodeEntries[cluster := entries]);
    ListedKeepsFiles(t, r, cluster, name);
    r
  }

  /** Listing one more node keeps every file of the tree in a listed directory. */
  lemma ListedKeepsFiles(t: Tree, r: Tree, cluster: string, name: string)
    requires ValidTree(t)
    requires Sorted(r.clusterEntries) && r.hasClustersDir
    requires forall c :: c in t.clusterEntries ==> c in r.clusterEntries
    requires r.nodeEntries == t.nodeEntries[cluster := InsertSorted(EntriesOf(t.nodeEntries, cluster), name)]
    requires cluster in r.clusterEntries
    requires r.clusterFiles == t.clusterFiles && r.nodeFiles == t.nodeFiles && r.configFiles == t.configFiles
    ensures ValidTree(r)
  {
    var old0 := EntriesOf(t.nodeEntries, cluster);
    forall k | k in r.nodeFiles ensures k.0 in r.nodeEntries && k.1 in r.nodeEntries[k.0] {
      if k.0 == cluster {
        assert k.1 in old0;
      }
    }
    forall k | k in r.configFiles ensures k.0 in r.nodeEntries && k.1 in r.nodeEntries[k.0] {
      if k.0 == cluster {
        assert k.1 in old0;
      }
    }
  }

  /** A root that holds nothing yet. */
  const EmptyTree: Tree := Tree(false, [], map[], map[], map[], map[])

  class Store {
    const root: string
    /** Operations of the workstation's file system that fail. */
    const faults: set<Fault>
    /** Whether `<root>/clusters` exists. */
    var hasClustersDir: bool
    /** The entries of `<root>/clusters`, in name order. */
    var clusterEntries: seq<string>
    /** The cluster.json files, by cluster name. */
    var clusterFiles: map<string, File<Cluster>>
    /** The entries of each existing `<cluster>/nodes` directory, in name order. */
    var nodeEntries: map<string, seq<string>>
    /** The node.json files, by (cluster, node). */
    var nodeFiles: map<(string, string), File<NodeMeta>>
    /** The hcos.yaml files, by (cluster, node). */
    var configFiles: map<(string, string), File<Config>>

    /** The tree the store holds is well formed. */
    ghost predicate Valid()
      reads this
    {
      ValidTree(Snapshot())
    }

    /** The tree the store holds now. */
    function Snapshot(): Tree
      reads this
    {
      Tree(hasClustersDir, clusterEntries, clusterFiles, nodeEntries, nodeFiles, configFiles)
    }

    /** A store over a directory that already holds `tree`. */
    constructor Load(root: string, faults: set<Fault>, tree: Tree)
      requires ValidTree(tree)
      ensures Valid() && Snapshot() == tree
      ensures this.root == root && this.faults == faults
    {
      this.root := root;
      this.faults := faults;
      hasClustersDir := tree.hasClustersDir;
      clusterEntries := tree.clusterEntries;
      clusterFiles := tree.clusterFiles;
      nodeEntries := tree.nodeEntries;
      nodeFiles := tree.nodeFiles;
      configFiles := tree.configFiles;
    }

    /** A store over an empty directory. */
    constructor (root: string, faults: set<Fault>)
      ensures Valid()
      ensures this.root == root && this.faults == faults
      ensures !hasClustersDir && clusterEntries == [] && clusterFiles == map[]
      ensures nodeEntries == map[] && nodeFiles == map[] && configFiles == map[]
    {
      this.root := root;
      this.faults := faults;
      hasClustersDir := false;
      clusterEntries := [];
      clusterFiles := map[];
      nodeEntries := map[];
      nodeFiles := map[];
      configFiles := map[];
    }

    /** `GetCluster`: a missing cluster.json is "not found"; any other failure is passed on. */
    function GetCluster(name: string): (r: Result<Cluster>)
      reads this
      ensures r.Ok? ==> name in clusterFiles && clusterFiles[name].content == Encoded(r.value)
      ensures r.Err? && r.error.IsNotFound() <==>
        Fault(Read, ClusterPath(root, name)) !in faults && name !in clusterFiles
      ensures r.Err? && r.error.IsNotFound() ==> r.error == ClusterNotFound(name)
    {
      var path := ClusterPath(root, name);
      if Fault(Read, path) in faults then Err(IoFailure(Read, path))
      else if name !in clusterFiles then Err(ClusterNotFound(name))
      else
        match clusterFiles[name].content
        case Garbled => Err(Undecodable(path))
        case Encoded(c) => Ok(c)
    }

    /**
     * `GetNode`: a missing node.json is "not found"; a missing hcos.yaml
     * beside a readable node.json is a plain "does not exist" error.
     */
    function GetNode(cluster: string, name: string): (r: Result<Node>)
      reads this
      ensures r.Ok? ==>
        && (cluster, name) in nodeFiles && nodeFiles[(cluster, name)].content == Encoded(r.value.Meta())
        && (cluster, name) in configFiles && configFiles[(cluster, name)].content == Encoded(r.value.osConfig)
      ensures r.Err? && r.error.IsNotFound() <==>
        Fault(Read, NodeFilePath(root, cluster, name)) !in faults && (cluster, name) !in nodeFiles
      ensures r.Err? && r.error.IsNotFound() ==> r.error == NodeNotFound(cluster, name)
      ensures && Fault(Read, NodeFilePath(root, cluster, name)) !in faults
              && (cluster, name) in nodeFiles && nodeFiles[(cluster, name)].content.Encoded?
              && Fault(Read, OsConfigPath(root, cluster, name)) !in faults
              && (cluster, name) !in configFiles
              ==> r == Err(NotExist(OsConfigPath(root, cluster, name)))
    {
      var path := NodeFilePath(root, cluster, name);
      var cfgPath := OsConfigPath(root, cluster, name);
      if Fault(Read, path) in faults then Err(IoFailure(Read, path))
      else if (cluster, name) !in nodeFiles then Err(NodeNotFound(cluster, name))
      else
        match nodeFiles[(cluster, name)].content
        case Garbled => Err(Undecodable(path))
        case Encoded(meta) =>
          if Fault(Read, cfgPath) in faults then Err(IoFailure(Read, cfgPath))
          else if (cluster, name) !in configFiles then Err(NotExist(cfgPath))
          else
            match configFiles[(cluster, name)].content
            case Garbled => Err(Undecodable(cfgPath))
            case Encoded(cfg) => Ok(Node(meta.name, meta.clusterName, meta.provider, cfg))
    }

    /** What `ListClusters` answers: every entry of the clusters directory, read in name order, or the first failure. */
    function ClusterListing(): Result<seq<Cluster>>
      reads this
    {
      var dir := ClustersDir(root);
      if Fault(ReadDir, dir) in faults then Err(IoFailure(ReadDir, dir))
      else if !hasClustersDir then Err(NotExist(dir))
      else Collect(seq(|clusterEntries|, i requires 0 <= i < |clusterEntries| reads this => GetCluster(clusterEntries[i])))
    }

    /** What `ListNodes` answers: every entry of the cluster's nodes directory, read in name order, or the first failure. */
    function NodeListing(cluster: string): Result<seq<Node>>
      reads this
    {
      var dir := NodesDir(root, cluster);
      if Fault(ReadDir, dir) in faults then Err(IoFailure(ReadDir, dir))
      else if cluster !in nodeEntries then Err(NotExist(dir))
      else
        var names := nodeEntries[cluster];
        Collect(seq(|names|, i requires 0 <= i < |names| reads this => GetNode(cluster, names[i])))
    }

    /** A listing that succeeds holds one node per directory entry, in name order, each as `GetNode` reads it. */
    lemma NodeListingEntries(cluster: string)
      requires Valid()
      requires NodeListing(cluster).Ok?
      ensures cluster in nodeEntries && Sorted(nodeEntries[cluster])
      ensures |NodeListing(cluster).value| == |nodeEntries[cluster]|
      ensures forall i :: 0 <= i < |nodeEntries[cluster]| ==>
        GetNode(cluster, nodeEntries[cluster][i]) == Ok(NodeListing(cluster).value[i])
    {
      var names := nodeEntries[cluster];
      var rs := seq(|names|, i requires 0 <= i < |names| reads this => GetNode(cluster, names[i]));
      assert NodeListing(cluster) == Collect(rs);
      assert forall i :: 0 <= i < |names| ==> rs[i] == GetNode(cluster, names[i]);
    }

    method ListClusters() returns (r: Result<seq<Cluster>>)
      ensures r == ClusterListing()
    {
      var dir := ClustersDir(root);
      if Fault(ReadDir, dir) in faults {
        return Err(IoFailure(ReadDir, dir));
      }
      if !hasClustersDir {
        return Err(NotExist(dir));
      }
      ghost var rs := seq(|clusterEntries|, i requires 0 <= i < |clusterEntries| reads this => GetCluster(clusterEntries[i]));
      var clusters: seq<Cluster> := [];
      var i := 0;
      while i < |clusterEntries|
        invariant 0 <= i <= |clusterEntries| && |clusters| == i
        invariant forall j :: 0 <= j < i ==> rs[j] == Ok(clusters[j])
      {
        var c := GetCluster(clusterEntries[i]);
        assert rs[i] == c;
        if c.Err? {
          assert FirstErr(rs) == i;
          return Err(c.error);
        }
        clusters := clusters + [c.value];
        i := i + 1;
      }
      assert FirstErr(rs) == |rs|;
      assert Collect(rs).value == clusters;
      return Ok(clusters);
    }

    /** `ListNodes` as written: a cluster without a nodes directory is an error. */
    method ListNodes(cluster: string) returns (r: Result<seq<Node>>)
      ensures r == NodeListing(cluster)
    {
      var dir := NodesDir(root, cluster);
      if Fault(ReadDir, dir) in faults {
        return Err(IoFailure(ReadDir, dir));
      }
      if cluster !in nodeEntries {
        return Err(NotExist(dir));
      }
      var names := nodeEntries[cluster];
      ghost var rs := seq(|names|, i requires 0 <= i < |names| reads this => GetNode(cluster, names[i]));
      var nodes: seq<Node> := [];
      var i := 0;
      while i < |names|
        invariant 0 <= i <= |names| && |nodes| == i
        invariant forall j :: 0 <= j < i ==> rs[j] == Ok(nodes[j])
      {
        var n := GetNode(cluster, names[i]);
        assert rs[i] == n;
        if n.Err? {
          assert FirstErr(rs) == i;
          return Err(n.error);
        }
        nodes := nodes + [n.value];
        i := i + 1;
      }
      assert FirstErr(rs) == |rs|;
      assert Collect(rs).value == nodes;
      return Ok(nodes);
    }

    /** The listing callers need: a cluster that has no nodes directory yet has no nodes. */
    function NodeListingCorrected(cluster: string): (r: Result<seq<Node>>)
      reads this
      ensures Fault(ReadDir, NodesDir(root, cluster)) !in faults && cluster !in nodeEntries ==> r == Ok([])
      ensures cluster in nodeEntries || Fault(ReadDir, NodesDir(root, cluster)) in faults ==> r == NodeListing(cluster)
    {
      if Fault(ReadDir, NodesDir(root, cluster)) !in faults && cluster !in nodeEntries then Ok([])
      else NodeListing(cluster)
    }

    method ListNodesCorrected(cluster: string) returns (r: Result<seq<Node>>)
      ensures r == NodeListingCorrected(cluster)
    {
      if Fault(ReadDir, NodesDir(root, cluster)) !in faults && cluster !in nodeEntries {
        return Ok([]);
      }
      r := ListNodes(cluster);
    }

    /** Whether `SaveCluster` succeeds for `name`: its directory can be made and its cluster.json written. */
    predicate ClusterSavable(name: string) {
      Fault(Mkdir, ClusterDir(root, name)) !in faults && Fault(Write, ClusterPath(root, name)) !in faults
    }

    /** Whether `SaveNode` succeeds for a node: its directory can be made and both of its files written. */
    predicate NodeSavable(cluster: string, name: string) {
      && Fault(Mkdir, NodeDir(root, cluster, name)) !in faults
      && Fault(Write, NodeFilePath(root, cluster, name)) !in faults
      && Fault(Write, OsConfigPath(root, cluster, name)) !in faults
    }

    /**
     * `SaveCluster`: create the cluster's directory, then write cluster.json
     * (mode 0600 when it is created). Reading it back gives the same record.
     */
    method SaveCluster(cluster: Cluster) returns (r: Result<()>)
      requires Valid()
      modifies this
      ensures Valid()
      ensures var dir := ClusterDir(root, cluster.name);
        var path := ClusterPath(root, cluster.name);
        if Fault(Mkdir, dir) in faults then
          r == Err(IoFailure(Mkdir, dir)) && unchanged(this)
        else
          && hasClustersDir
          && clusterEntries == InsertSorted(old(clusterEntries), cluster.name)
          && nodeEntries == old(nodeEntries) && nodeFiles == old(nodeFiles) && configFiles == old(configFiles)
          && if Fault(Write, path) in faults then
               r == Err(IoFailure(Write, path)) && clusterFiles == old(clusterFiles)
             else
               r == Ok(()) && clusterFiles == Stored(old(clusterFiles), cluster.name, cluster, Perm0600)
      ensures Snapshot() == ClusterSaveTree(old(Snapshot()), root, faults, cluster)
      ensures r.Ok? <==> ClusterSavable(cluster.name)
      ensures r.Ok? && Fault(Read, ClusterPath(root, cluster.name)) !in faults ==>
        GetCluster(cluster.name) == Ok(cluster)
    {
      var dir := ClusterDir(root, cluster.name);
      if Fault(Mkdir, dir) in faults {
        return Err(IoFailure(Mkdir, dir));
      }
      hasClustersDir := true;
      clusterEntries := InsertSorted(clusterEntries, cluster.name);
      var path := ClusterPath(root, cluster.name);
      if Fault(Write, path) in faults {
        return Err(IoFailure(Write, path));
      }
      clusterFiles := Stored(clusterFiles, cluster.name, cluster, Perm0600);
      r := Ok(());
    }

    /**
     * `SaveNode`: create the node's directory (and every directory above
     * it), write node.json (0644), then hcos.yaml (0600). A failure of the
     * second write leaves node.json behind. Reading the node back gives the
     * node that was saved.
     */
    method SaveNode(cluster: string, node: Node) returns (r: Result<()>)
      requires Valid()
      modifies this
      ensures Valid()
      ensures var key := (cluster, node.name);
        var dir := NodeDir(root, cluster, node.name);
        var nodePath := NodeFilePath(root, cluster, node.name);
        var cfgPath := OsConfigPath(root, cluster, node.name);
        if Fault(Mkdir, dir) in faults then
          r == Err(IoFailure(Mkdir, dir)) && unchanged(this)
        else
          && hasClustersDir
          && clusterEntries == InsertSorted(old(clusterEntries), cluster)
          && nodeEntries == old(nodeEntries)[cluster := InsertSorted(EntriesOf(old(nodeEntries), cluster), node.name)]
          && clusterFiles == old(clusterFiles)
          && if Fault(Write, nodePath) in faults then
               r == Err(IoFailure(Write, nodePath)) && nodeFiles == old(nodeFiles) && configFiles == old(configFiles)
             else
               && nodeFiles == Stored(old(nodeFiles), key, node.Meta(), Perm0644)
               && if Fault(Write, cfgPath) in faults then
                    r == Err(IoFailure(Write, cfgPath)) && configFiles == old(configFiles)
                  else
                    r == Ok(()) && configFiles == Stored(old(configFiles), key, node.osConfig, Perm0600)
      ensures Snapshot() == NodeSaveTree(old(Snapshot()), root, faults, cluster, node)
      ensures r.Ok? <==> NodeSavable(cluster, node.name)
      ensures && r.Ok?
              && Fault(Read, NodeFilePath(root, cluster, node.name)) !in faults
              && Fault(Read, OsConfigPath(root, cluster, node.name)) !in faults
              ==> GetNode(cluster, node.name) == Ok(node)
    {
      var key := (cluster, node.name);
      var dir := NodeDir(root, cluster, node.name);
      if Fault(Mkdir, dir) in faults {
        return Err(IoFailure(Mkdir, dir));
      }
      MakeNodeDir(cluster, node.name);
      var nodePath := NodeFilePath(root, cluster, node.name);
      if Fault(Write, nodePath) in faults {
        return Err(IoFailure(Write, nodePath));
      }
      nodeFiles := Stored(nodeFiles, key, node.Meta(), Perm0644);
      var cfgPath := OsConfigPath(root, cluster, node.name);
      if Fault(Write, cfgPath) in faults {
        return Err(IoFailure(Write, cfgPath));
      }
      configFiles := Stored(configFiles, key, node.osConfig, Perm0600);
      r := Ok(());
    }
    /** `os.MkdirAll` of a node's directory: the cluster and the node appear in their parents' listings. */
    method MakeNodeDir(cluster: string, name: string)
      requires Valid()
      modifies this
      ensures Valid()
      ensures hasClustersDir && clusterEntries == InsertSorted(old(clusterEntries), cluster)
      ensures nodeEntries == old(nodeEntries)[cluster := InsertSorted(EntriesOf(old(nodeEntries), cluster), name)]
      ensures clusterFiles == old(clusterFiles) && nodeFiles == old(nodeFiles) && configFiles == old(configFiles)
    {
      var old0 := EntriesOf(nodeEntries, cluster);
      var entries := InsertSorted(old0, name);
      hasClustersDir := true;
      clusterEntries := InsertSorted(clusterEntries, cluster);
      nodeEntries := nodeEntries[cluster := entries];
      forall k | k in nodeFiles ensures k.0 in nodeEntries && k.1 in nodeEntries[k.0] {
        if k.0 == cluster {
          assert k.1 in old0;
        }
      }
      forall k | k in configFiles ensures k.0 in nodeEntries && k.1 in nodeEntries[k.0] {
        if k.0 == cluster {
          assert k.1 in old0;
        }
      }
    }
  }

  /**
   * `LoadOrCreate`: pick the root (the default when none is given) and make
   * sure it exists. `existing` is what the root already holds (`EmptyTree`
   * when it does not exist yet); an existing root is kept as it is.
   */
  method LoadOrCreate(rootDir: string, home: Option<string>, faults: set<Fault>, existing: Tree) returns (r: Result<Store>)
    requires ValidTree(existing)
    ensures r.Err? <==> Fault(Mkdir, StoreRoot(rootDir, home)) in faults
    ensures r.Err? ==> r.error == IoFailure(Mkdir, StoreRoot(rootDir, home))
    ensures r.Ok? ==> fresh(r.value) && r.value.Valid() && r.value.root == StoreRoot(rootDir, home)
    ensures r.Ok? ==> r.value.faults == faults && r.value.Snapshot() == existing
  {
    var root := StoreRoot(rootDir, home);
    if Fault(Mkdir, root) in faults {
      return Err(IoFailure(Mkdir, root));
    }
    var s := new Store.Load(root, faults, existing);
    return Ok(s);
  }

  /** The default root is `.homecloud` directly under the home directory. */
  lemma DefaultRootUnderHome(home: string)
    requires PlainRoot(home)
    ensures StoreRoot("", Some(home)) == home + "/.homecloud"
    ensures StoreRoot("", None) == ".homecloud"
  {
  }
}
