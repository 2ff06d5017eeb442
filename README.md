# homecloud in Dafny

homecloud runs a small k3s cluster on Raspberry Pi 4 boards that reach each
other over a Tailscale tailnet. It has two halves, and this project models
the core of both.

- **The workstation tool** keeps a registry of clusters and nodes in a
  directory tree (`<root>/clusters/<cluster>/cluster.json` and
  `<root>/clusters/<cluster>/nodes/<node>/{node.json,hcos.yaml}`). It
  creates a cluster with a fresh join token. It creates a node by choosing
  its k3s role from the nodes already there, building the node's
  configuration document, writing the image, and saving the node. The node
  that initialises the cluster becomes the cluster's k3s endpoint.
- **The node agent** reads the configuration document at boot. It writes
  ConnMan's configuration and the Wi-Fi service, waits for `tailscaled`, and
  joins the tailnet unless the node has already joined. It then waits for
  the node's Tailscale address, writes the k3s environment file and starts
  k3s. The node-side system helpers are modelled too: setting the host name
  (with the `/etc/hosts` rewrite), reading `/etc/passwd`, setting a password
  with `chpasswd`, and installing SSH authorized keys.

How it is modelled:

- The registry is a class, `Registry.Store`. Its fields are the directory
  tree, keyed by the names the paths are built from. Its methods update
  those fields, and its functions read them.
- The node's operating system is a class, `Host.Machine`. It holds the file
  system, the kernel's host name and the log of executed commands.
- The environment's decisions are given in advance, as fields of the
  machine:
  - the set of file-system operations that fail;
  - whether `sethostname(2)` fails;
  - the replies the commands will produce, in order;
  - the status answers `tailscaled` will give, in order.
- The source's waits poll without end. Here a wait reads the scripted
  answers one at a time. When the script runs out, the result is
  `Waiting`, which stands for a program that is still blocked.
- Each wait and each multi-step procedure has a pure specification
  function: `NetworkPoll`, `DaemonPoll`, `IPPoll`, `TailscaleTrace`,
  `NewHostLines`, `NodeListing`. The method that does the work is proved
  against that function, and the lemmas about the function state what the
  source promises.
- Randomness (`crypto/rand`), deriving the public key from the cluster's
  private SSH key, and writing the image are the one piece each that cannot
  be seen. They are parameters of the operations that use them.

Files:

- `errors.dfy`: errors and results.
- `text.dfy`: the string functions of Go's standard library that the core
  relies on.
- `base64.dfy`: standard base64.
- `config.dfy`: the configuration document.
- `registry.dfy`: the store.
- `client.dfy`: clusters and nodes on the workstation.
- `host.dfy`: the node's operating system.
- `network.dfy`: ConnMan's state.
- `tailscale.dfy`: Tailscale.
- `hostname.dfy`: the host name.
- `users.dfy`: users and passwords.
- `ssh.dfy`: authorized keys.
- `agent.dfy`: the agent.

Notes on what the code does, which the model follows:

- `ApplyConfig` applies only the network and k3s sections. The host name,
  the password and the authorized keys in the document are not applied by
  the agent (internal/agent/agent.go:22-30). `SetHostname`, `SetPassword`
  and `SetAuthorizedKeys` are modelled as the helpers they are.
- The `control-plane` and `worker` roles are accepted by `applyK3s`, which
  waits for the Tailscale address. It then refuses them as not implemented
  (internal/agent/agent.go:149-154). Only a `cluster-init` node gets a k3s
  environment file.
- A failure to create a ConnMan directory is formatted with `%v`, which
  does not keep the cause as a wrapped error. The model keeps the cause
  inside `Wrapped`, so that the error stays observable.
- `Cluster` as declared in internal/client/cluster.go:11-15 has no `Server`
  field. `CreateRPi4Node` reads and writes `cluster.Server`
  (internal/client/node.go:89 and 123). The model's `Cluster` has the field.
- The agent reads the document through pkg/config, and the workstation
  writes it through pkg/os/config. Their field names and YAML keys agree,
  so `OsConfig` models both.
- `ClusterServer` and `CreateRPi4Node` list the nodes with `ListNodes`, as
  the code does, so a cluster without a nodes directory is an error for
  them. `ClusterServerCorrected` and `CreateRPi4NodeCorrected` list such a
  cluster as empty (see Findings).
- The scan in `ClusterServer` is modelled with a fresh loop variable per
  iteration, as Go 1.22 and later run it. Under older Go, `&node` aliases
  one variable; `ServerIndexAsWritten` models that reading (see Findings).
- `ListNodes` and `ListClusters` return entries in file-name order, because
  `os.ReadDir` sorts them. The model keeps directory listings strictly
  sorted.

## Model

| member | source | states |
|---|---|---|
| Errors.FirstErr | internal/client/store.go:126-132 | index of the first failing read: everything before it succeeded |
| Errors.Collect | internal/client/store.go:64-72 | the loop that stops at the first failed read: all values in order exactly when no read failed, otherwise that first failure |
| Text.TrimLeft | internal/system/user.go:30 | the result is a suffix, starts with a non-space, and only white space was removed |
| Text.TrimRight | internal/system/hostname_linux.go:38 | the result is a prefix, ends with a non-space, and only white space was removed |
| Text.TrimSpaceIdempotent | internal/system/hostname_linux.go:38 | trimming an already trimmed line changes nothing |
| Text.SpanNonSpace | internal/system/hostname_linux.go:39 | length of the leading word: non-spaces up to the first space |
| Text.Fields | internal/system/hostname_linux.go:39 | `strings.Fields`: every field is non-empty and has no white space |
| Text.WordsCons | internal/system/hostname_linux.go:39 | a word in front of a list of words is still a list of words |
| Text.SpanIsWord | internal/system/hostname_linux.go:39 | text that starts with a non-space has a non-empty leading word |
| Text.FirstField | internal/client/cluster.go:22 | a word followed by white space or nothing is the first field, and the rest gives the other fields |
| Text.FindChar | internal/system/user.go:62 | index of the first occurrence of a character, or the length when it is absent |
| Text.SliceOfTail | internal/system/network.go:34-35 | a slice of the tail is the shifted slice of the whole |
| Text.FindSub | internal/system/network.go:34-35 | first position where a pattern occurs, none before it; none at all when absent |
| Text.JoinTerminated | internal/system/hostname_linux.go:50 | joining lines with line breaks and adding one more terminates every line |
| Text.Split | internal/system/user.go:31 | `strings.Split` on one character: at least one part, none holding the separator |
| Text.JoinSplit | internal/system/user.go:31 | joining the parts of a split gives back the text |
| Text.SplitJoin | internal/system/user.go:31 | splitting parts joined by a separator they lack gives back the parts |
| Text.AnyAt | internal/system/user.go:29-35 | an element that satisfies the test makes the scan find one |
| Text.AnyIndex | internal/system/user.go:29-35 | a scan that finds an element yields its index |
| Text.FirstWhere | internal/system/user.go:29-35 | index of the first element that passes the test, none before it |
| Text.ScanLines | internal/system/hostname_linux.go:32-37 | `bufio.ScanLines`: no scanned line holds a line break |
| Text.ScanTerminated | internal/system/hostname_linux.go:37-50 | scanning terminated lines gives back each line, minus one trailing carriage return |
| Text.Atoi | internal/system/user.go:36-43 | `strconv.Atoi`: an accepted number is non-empty text and fits in 64 bits |
| Text.Itoa | internal/system/user.go:36 | a formatted number is a non-empty run of digits |
| Text.ItoaValue | internal/system/user.go:36 | the digits of a formatted number denote the number |
| Text.AtoiItoa | internal/system/user.go:36-43 | reading back a formatted 64-bit number gives the number |
| Text.BelowIrreflexive | internal/client/store.go:60 | the name order of `os.ReadDir` is irreflexive |
| Text.BelowTransitive | internal/client/store.go:60 | the name order is transitive |
| Text.BelowTotal | internal/client/store.go:60 | two different names are ordered one way or the other |
| Text.InsertSorted | internal/client/store.go:138 | creating a directory entry keeps the listing sorted, adds exactly that name, and changes nothing when it is already there |
| Text.TrimTrailingSlashes | internal/agent/agent.go:33 | the prefix `path.Join` keeps of the root: only slashes removed, none left at the end |
| Base64.Char | internal/client/cluster.go:85 | an alphabet character is never the padding character |
| Base64.Index | internal/client/cluster.go:85 | decoding a character gives a 6-bit value that encodes back to it |
| Base64.IndexChar | internal/client/cluster.go:85 | every 6-bit value decodes back from its character |
| Base64.Sextets | internal/client/cluster.go:85 | three bytes become four 6-bit values |
| Base64.Octets | internal/client/cluster.go:85 | four 6-bit values become three bytes |
| Base64.GroupRoundTrip | internal/client/cluster.go:85 | three bytes split into 6-bit values and joined again are the same bytes |
| Base64.Quad | internal/client/cluster.go:85 | a full group encodes to four characters without padding |
| Base64.EncodeLength | internal/client/cluster.go:85 | `StdEncoding.EncodeToString` gives 4 characters per started group of 3 bytes |
| Base64.EncodePadding | internal/client/cluster.go:85 | padding appears exactly at the end, as many as the last group lacks |
| Base64.Value | internal/client/cluster.go:85 | a decoded character is a 6-bit value |
| Base64.ValueChar | internal/client/cluster.go:85 | every 6-bit value is the value of its own character |
| Base64.DecodeOne | internal/client/cluster.go:85 | a one-byte tail round-trips through encoding |
| Base64.DecodeTwo | internal/client/cluster.go:85 | a two-byte tail round-trips through encoding |
| Base64.DecodeGroup | internal/client/cluster.go:85 | decoding a full group in front of more text gives its three bytes in front of the rest |
| Base64.DecodeEncode | internal/client/cluster.go:85 | decoding the encoding of any byte string gives it back |
| Registry.Stored | internal/client/store.go:84 | writing a record replaces that file's content only; the mode is kept for an existing file and is `perm` for a new one |
| Registry.PathLayout | internal/client/store.go:90-92 | the cluster and node paths are `<root>/clusters/<c>/cluster.json` and `<root>/clusters/<c>/nodes/<n>` |
| Registry.NodeDirInjective | internal/client/store.go:162-164 | different (cluster, node) pairs never share a node directory |
| Registry.NameSplit | internal/client/store.go:162-164 | a slash-free name followed by a slash is recovered from the path |
| Registry.SlashAfterName | internal/client/store.go:162-164 | the first slash after a slash-free name is right after it |
| Registry.Store.constructor | internal/client/store.go:31-40 | a new store has the given root and an empty tree |
| Registry.Store.Load | internal/client/store.go:31-40 | a store over an existing root holds exactly the tree found there |
| Registry.Store.GetCluster | internal/client/store.go:42-56 | a decoded cluster.json is returned; a missing one is "not found", and only a missing one |
| Registry.Store.GetNode | internal/client/store.go:94-117 | node.json and hcos.yaml together give the node; only a missing node.json is "not found"; a missing hcos.yaml is a plain "does not exist" |
| Registry.Store.NodeListingEntries | internal/client/store.go:119-134 | a successful listing has one node per directory entry, in name order, each as `GetNode` reads it |
| Registry.Store.ListClusters | internal/client/store.go:58-73 | the loop over the clusters directory answers `ClusterListing`: all clusters in name order, or the first failure |
| Registry.Store.ListNodes | internal/client/store.go:119-134 | the loop over the nodes directory answers `NodeListing`, including the failure on a missing directory |
| Registry.Store.NodeListingCorrected | internal/client/store.go:119-124 | a missing nodes directory lists as no nodes; otherwise the same answer as written |
| Registry.Store.ListNodesCorrected | internal/client/store.go:119-134 | the loop answers `NodeListingCorrected` |
| Registry.Store.SaveCluster | internal/client/store.go:75-88 | the directory is made, then cluster.json is written with 0600; each failure is reported with nothing later done; the whole new tree is `ClusterSaveTree` of the old one; success exactly when neither step is refused; a saved cluster reads back as itself |
| Registry.Store.SaveNode | internal/client/store.go:136-160 | directories, then node.json (0644), then hcos.yaml (0600); a failed second write leaves node.json behind; the whole new tree is `NodeSaveTree` of the old one; success exactly when no step is refused; a saved node reads back as itself |
| Registry.Store.MakeNodeDir | internal/client/store.go:138 | `MkdirAll` of a node directory adds the cluster and node entries and no file |
| Registry.ClusterSaveTree | internal/client/store.go:75-88 | the tree after saving a cluster stays well formed, keeps every node record and every other cluster's cluster.json, and drops no listed cluster |
| Registry.NodeListed | internal/client/store.go:138 | making a node directory keeps the tree well formed, lists the cluster and the node, and changes no file |
| Registry.NodeSaveTree | internal/client/store.go:136-160 | the tree after saving a node stays well formed, keeps every cluster.json and every other node's node.json and hcos.yaml, and drops no listed cluster |
| Registry.LoadOrCreate | internal/client/store.go:31-40 | the root is the given one or the default; the store exists exactly when the root can be made, and then holds exactly the tree already under the root (an empty one for a new root) |
| Registry.DefaultRootUnderHome | internal/client/store.go:166-172 | the default root is `.homecloud` under the home directory, or in the working directory when there is none |
| Client.SSHAuthorizedKey | internal/client/cluster.go:17-23 | the derived public key followed by a space and the cluster name; a derivation failure is passed on |
| Client.AuthorizedKeyFields | internal/client/cluster.go:22 | the authorized key line splits into exactly the key and the cluster name |
| Client.SingleField | internal/client/cluster.go:22 | a single word, with or without a leading space, is one field |
| Client.GenerateToken | internal/client/cluster.go:80-86 | a failing random source is an error; otherwise 44 characters ending in one `=` that decode back to the 32 random bytes |
| Client.CreateCluster | internal/client/cluster.go:29-53 | a taken name, a lookup failure, a missing SSH key and a failing random source are refused with the store untouched; past those checks the new tree is `ClusterSaveTree` of the old one for the new cluster (so a failed save leaves exactly what its steps did), success exactly when the cluster can be saved; a created cluster has the token, no server, and reads back as itself |
| Client.FirstWithRole | internal/client/cluster.go:66-69 | index of the first node with the role, none before it |
| Client.LastWithRole | internal/client/cluster.go:70-72 | index of the last node with the role, none after it |
| Client.ServerIndex | internal/client/cluster.go:64-73 | the endpoint node is a cluster-init or control-plane node, and there is none exactly when no node has either role |
| Client.ClusterInitWins | internal/client/cluster.go:67-69 | the first cluster-init node is chosen, whatever comes before or after it |
| Client.ServerFor | internal/client/cluster.go:74-77 | no server node is an error naming the cluster; otherwise `https://<host>:6443` of the chosen node |
| Client.ChooseServer | internal/client/cluster.go:64-73 | the loop over the nodes picks `ServerIndex` |
| Client.ClusterServer | internal/client/cluster.go:55-78 | as written, listing with `ListNodes`: a lookup or listing failure (a missing nodes directory included) is passed on; otherwise the endpoint of the chosen node |
| Client.ClusterServerCorrected | internal/client/cluster.go:55-78 | as intended: a missing nodes directory lists as no nodes, so a new cluster answers that it has no control-plane node; otherwise the endpoint of the first cluster-init node, or else the last control-plane node |
| Client.ServerOf | internal/client/cluster.go:64-77 | the scan and its answer give `ServerFor` of the listing |
| Client.ServerIndexAsWritten | internal/client/cluster.go:65-73 | the loop as written: some node is picked exactly when a server node exists |
| Client.AliasedServerPicksWorker | internal/client/cluster.go:65-73 | for [control-plane, worker] the aliased address picks the worker, and the intended choice is the control-plane node |
| Client.ValidateNodeName | internal/client/node.go:131-138 | a name is free exactly when the lookup says "not found"; a found node or any other failure refuses it |
| Client.K3sFor | internal/client/node.go:70-90 | the first node must be a control-plane node and becomes cluster-init; later nodes are control-plane or worker and join the cluster's server; the token is the cluster's |
| Client.NodeConfigContents | internal/client/node.go:91-106 | the document has host name `<node>-<cluster>`, the one authorized key, the k3s section, the auth key, and Wi-Fi only when a network is named |
| Client.StoredKeepsSingleClusterInit | internal/client/node.go:77-82 | writing one document keeps at most one cluster-init node per cluster, when cluster-init goes only into an empty cluster |
| Client.NodePlan | internal/client/node.go:57-111 | the planned node has the requested name and cluster, provider `rpi4`, host `<node>-<cluster>`, the one authorized key and the cluster's token; it is cluster-init exactly when the listing is empty and a worker exactly when no control plane was asked for; it is refused only by the lookup, the name check, the key, the listing, or a first node that is not a control plane |
| Client.CreateRPi4Node | internal/client/node.go:57-129 | as written, listing with `ListNodes`: a refused plan is returned with the store untouched; a failed image write changes nothing; otherwise success exactly when the node, and for cluster-init the cluster, can be saved; the created node is the plan and reads back; only a cluster-init node sets the cluster's endpoint; at most one cluster-init node per cluster is kept; whenever the saves are reached the whole new tree is the node saved first (`NodeSaveTree`) and then, only for a cluster-init node whose save succeeded, the cluster with its endpoint (`ClusterSaveTree`), so a failed save leaves exactly what its steps did |
| Client.CreateRPi4NodeCorrected | internal/client/node.go:57-129 | the same with a missing nodes directory listed as no nodes, so the first node of a new cluster can be created |
| Client.ProvisionNode | internal/client/node.go:74-128 | the role follows the listing; a failed image write changes nothing; success exactly when the saves can succeed; the saved node reads back; the cluster's endpoint is set only for cluster-init; at most one cluster-init node per cluster is kept; whenever the saves are reached the whole new tree is the node saved first (`NodeSaveTree`) and then, only for a cluster-init node whose save succeeded, the cluster with its endpoint (`ClusterSaveTree`), so a failed save leaves exactly what its steps did |
| Client.FirstNodePlans | internal/client/store.go:119-124 | for a cluster without a nodes directory, the plan as written stops with "does not exist"; the corrected plan makes a control-plane request the cluster-init node and refuses a worker |
| Client.EmptyListingHasNoConfigs | internal/client/node.go:73-82 | a cluster listed with no nodes has no stored node document |
| Client.FreshClusterListing | internal/client/store.go:119-124 | a cluster with no nodes directory: as written the listing fails with "does not exist", corrected it is empty |
| Host.LastSlash | internal/system/ssh.go:38 | index of the last slash, none after it |
| Host.ParentOfChild | internal/system/ssh.go:38 | the parent of `dir/name` is `dir` |
| Host.Ancestors | internal/agent/agent.go:33 | the directories `MkdirAll(p)` ensures include `p` |
| Host.MadeAll | internal/agent/agent.go:33 | the directories after `MkdirAll(p)`: the old ones with their modes, plus every ancestor of `p`, new ones owned by root with `perm` |
| Host.Written | internal/system/hostname_linux.go:51 | `os.WriteFile` replaces one file's content; an existing file keeps its attributes, a new one gets `perm` and root ownership |
| Host.Machine.constructor | internal/agent/agent.go:162 | a machine starts with the given file system and scripts and an empty command log |
| Host.Machine.Stat | internal/system/ssh.go:23 | `os.Stat` succeeds exactly on existing entries; "does not exist" exactly on missing ones |
| Host.Machine.ReadFile | pkg/config/config.go:48 | `os.ReadFile` returns the content of an existing file; "does not exist" exactly for a missing path |
| Host.Machine.ReadText | internal/system/user.go:22 | a file read as text succeeds exactly for a text file |
| Host.Machine.WriteFile | internal/agent/agent.go:44 | `os.WriteFile` succeeds exactly when the file can be written and then holds the content; a failure changes nothing |
| Host.Machine.MkdirAll | internal/agent/agent.go:33 | `os.MkdirAll` leaves exactly `MadeAll`: the missing ancestors added with `perm`, the existing ones kept; a refusal changes nothing |
| Host.Machine.Mkdir | internal/system/ssh.go:25 | `os.Mkdir` needs the parent and a free path, and adds exactly that directory |
| Host.Machine.Chmod | internal/system/ssh.go:32 | `os.Chmod` changes only the mode of an existing entry |
| Host.Machine.Chown | internal/system/ssh.go:35 | `os.Chown` changes only the owner of an existing entry |
| Host.Machine.Sethostname | internal/system/hostname_linux.go:16 | `sethostname(2)` sets the kernel's name unless refused |
| Host.Machine.Exec | internal/system/openrc.go:9-10 | running a command takes the next scripted reply and logs the command |
| Host.Machine.QueryStatus | internal/tailscale/tailscale.go:18 | a status query takes the next scripted answer |
| Network.FirstLine | internal/system/network.go:34 | the text up to the first line break, which `.` in `State = (.*)` cannot cross |
| Network.ConnManState | internal/system/network.go:27-40 | a failed command or one mentioning `name net.connman` is "unreachable"; no `State = ` is unparsable; otherwise the rest of the first state line |
| Network.ParseStateLine | internal/system/network.go:34-39 | the output of `connmanctl state` with an indented state line parses to that state |
| Network.PrefixAfterIndent | internal/system/network.go:34-35 | the state line is found right after its indentation |
| Network.NoPrefixInIndent | internal/system/network.go:34-35 | no state line starts inside the indentation |
| Network.LineUpToBreak | internal/system/network.go:34 | the state stops at its line break |
| Network.Repeated | internal/system/network.go:13-14 | one state command per poll |
| Network.NetworkPoll | internal/system/network.go:12-25 | the wait ends at the first reply reporting `ready` or `online`; errors and other states only make it wait |
| Network.WaitNetwork | internal/system/network.go:12-25 | the loop runs `connmanctl state` once per reply and answers `NetworkPoll` |
| Tailscale.Configured | internal/tailscale/tailscale.go:38-48 | a status error is passed on; otherwise configured exactly for NeedsMachineAuth or Running |
| Tailscale.StartedStates | internal/tailscale/tailscale.go:30-36 | the started states are NeedsLogin, NeedsMachineAuth, Running and Stopped; every configured state is a started one |
| Tailscale.UpResult | internal/tailscale/tailscale.go:51-66 | exit 0 is authorized; a failed exit asking to authorize the machine is joined without authorization; any other failed exit is its output; a command that did not start is its error |
| Tailscale.Up | internal/tailscale/tailscale.go:51-66 | runs `tailscale up --auth-key <key> --ssh --timeout 10s` once and answers `UpResult` of its reply |
| Tailscale.IsConfigured | internal/tailscale/tailscale.go:38-48 | asks the daemon once and answers `Configured` |
| Tailscale.DaemonPoll | internal/tailscale/tailscale.go:16-28 | the wait ends at the first answer with a started state; errors and other states only make it wait |
| Tailscale.AddressPoll | internal/tailscale/tailscale.go:70-79 | a status error ends the loop; otherwise it ends at the first answer with addresses and gives the first address |
| Tailscale.IPPoll | internal/tailscale/tailscale.go:68-80 | the daemon wait, then the address loop on the answers after it |
| Tailscale.StatusErrorFatalOnlyAfterStart | internal/tailscale/tailscale.go:68-80 | the same status error is waited out before the daemon starts and is returned after it |
| Tailscale.WaitDaemon | internal/tailscale/tailscale.go:16-28 | the loop answers `DaemonPoll` |
| Tailscale.WaitIP | internal/tailscale/tailscale.go:68-80 | answers `IPPoll` |
| Tailscale.WaitAddress | internal/tailscale/tailscale.go:70-79 | the address loop answers `AddressPoll` |
| Hostname.RewrittenLines | internal/system/hostname_linux.go:37-46 | each scanned line becomes its rewritten line |
| Hostname.NewHostLines | internal/system/hostname_linux.go:33-49 | every `127.0.1.1` record becomes `127.0.1.1<TAB><name>`; other lines are trimmed; the record is appended exactly when none existed |
| Hostname.RewrittenHostsTerminated | internal/system/hostname_linux.go:50 | the new file is the new lines, each ended by a line break |
| Hostname.TrimSpaceWithout | internal/system/hostname_linux.go:38 | trimming adds no character |
| Hostname.HostLineIsEntry | internal/system/hostname_linux.go:35-40 | the host line written is itself a `127.0.1.1` record |
| Hostname.RewrittenLineStable | internal/system/hostname_linux.go:38-45 | rewriting a rewritten line again changes nothing |
| Hostname.NewHostLinesSingle | internal/system/hostname_linux.go:33-49 | no new line holds a line break |
| Hostname.RescannedStable | internal/system/hostname_linux.go:37-50 | rescanning the written file and rewriting each line gives the same lines |
| Hostname.RescannedHasEntry | internal/system/hostname_linux.go:47-50 | the written file has a `127.0.1.1` record |
| Hostname.FixedLines | internal/system/hostname_linux.go:33-49 | lines that rewrite to themselves and hold a record are kept as they are |
| Hostname.RewriteIdempotent | internal/system/hostname_linux.go:25-52 | rewriting `/etc/hosts` a second time with the same name gives the same file |
| Hostname.RewriteLines | internal/system/hostname_linux.go:33-49 | the loop computes `NewHostLines` |
| Hostname.UpdateHostsFile | internal/system/hostname_linux.go:25-52 | a read failure is returned; otherwise `/etc/hosts` is replaced by the rewritten file exactly when it can be written |
| Hostname.SetHostname | internal/system/hostname_linux.go:12-23 | an empty name is refused; then the kernel name, `/etc/hostname` as `<name>\n`, then `/etc/hosts`; success exactly when every step can succeed; once the kernel accepts the name, `/etc/hostname` holds it whenever it can be written, and when `/etc/hosts` then fails the files are exactly the old ones with `/etc/hostname` written; a refused `/etc/hostname` changes no file |
| Users.ParseEntry | internal/system/user.go:36-49 | the entry of a matching line: uid and gid as numbers, home from the sixth field; a bad uid or gid is its own error |
| Users.LookupFirstWins | internal/system/user.go:29-50 | the first line with seven fields and the user's name decides the answer |
| Users.LookupNotFound | internal/system/user.go:54 | "not found" exactly when no line matches |
| Users.TrimmedAlready | internal/system/user.go:30 | a line with no outer white space is its own trimmed form |
| Users.ParsePasswdLine | internal/system/user.go:30-49 | a well-formed passwd line matches its user and parses to its uid, gid and home |
| Users.SingleUserPasswd | internal/system/user.go:21-55 | a passwd file with that one line gives the user's entry |
| Users.PasswdLineIsOneLine | internal/system/user.go:28-30 | a passwd line is scanned as itself |
| Users.JoinWithout | internal/system/user.go:31 | joining parts that lack a character with a separator that lacks it gives text that lacks it |
| Users.JoinLast | internal/system/user.go:31 | joined text ends as its last part ends |
| Users.GetUser | internal/system/user.go:21-55 | the loop over the lines answers `UserLookup` of `/etc/passwd` |
| Users.ChpasswdArgs | internal/system/user.go:58-61 | `chpasswd`, with `-e` exactly when the password starts with `$` |
| Users.ChpasswdInputSplits | internal/system/user.go:62 | the input `<user>:<password>` splits at its first colon into the user and the password |
| Users.SetPassword | internal/system/user.go:57-68 | runs `chpasswd` once with that input; success exactly on exit 0; a failure carries the user and the output |
| Ssh.KeysPathLayout | internal/system/ssh.go:22-38 | `.ssh` and `.ssh/authorized_keys` under the home directory |
| Ssh.KeysParent | internal/system/ssh.go:38 | the keys file is an entry of the `.ssh` directory |
| Ssh.KeysContentLines | internal/system/ssh.go:39 | the keys file scans back to the keys, one per line |
| Ssh.KeysInstalled | internal/system/ssh.go:38-43 | the keys file holds the keys, is owned by the user, and keeps an existing file's mode (0600 when new); nothing else changes |
| Ssh.EnsureSshDir | internal/system/ssh.go:22-31 | an existing `.ssh` is kept; a missing one is made with 0700; any other failure to look at it is returned |
| Ssh.InstallKeys | internal/system/ssh.go:35-43 | the directory is handed to the user, then the keys file is written and handed to the user; each failure stops the rest, and the files and directories it leaves are stated for each: a refused chown of `.ssh` changes nothing, a `.ssh` that is a file gets its owner changed and then fails |
| Ssh.AuthorizeKeys | internal/system/ssh.go:22-43 | as written: when chmod of `.ssh` fails, the answer is success, no key is written and the directories are those after obtaining `.ssh`; once `.ssh` is obtained and its mode set, success exactly when the keys can be installed, and every outcome, failures included, leaves exactly the state `KeysStepsLeft` describes |
| Ssh.AuthorizeKeysCorrected | internal/system/ssh.go:22-43 | as intended: a chmod failure is returned, with the directories those after obtaining `.ssh`; once `.ssh` is obtained and its mode set, success exactly when the keys can be installed, and every outcome, failures included, leaves exactly the state `KeysStepsLeft` describes; success means `.ssh` is 0700 and owned by the user, and the keys are installed |
| Ssh.SetAuthorizedKeys | internal/system/ssh.go:17-44 | a failed user lookup changes nothing; as written, a chmod failure reports success with the files unchanged and the directories those after obtaining `.ssh`; otherwise success exactly when the keys can be installed, every outcome leaves exactly the state `KeysStepsLeft` describes, and success means `.ssh` is 0700 and the user's and the keys are installed |
| Ssh.SetAuthorizedKeysCorrected | internal/system/ssh.go:17-44 | as intended: a chmod failure is returned, with the directories those after obtaining `.ssh`; otherwise success exactly when the keys can be installed, every outcome leaves exactly the state `KeysStepsLeft` describes, and success means `.ssh` is 0700 and the user's and the keys file holds exactly the keys, owned by the user |
| Ssh.ChmodRefusingMachine | internal/system/ssh.go:32-34 | a machine where the user is known, `.ssh` can be made, and chmod of it fails |
| Ssh.DemoUser | internal/system/user.go:21-55 | the passwd file of that machine gives user `pi` with uid 1000 |
| Ssh.ChmodRefusedScenario | internal/system/ssh.go:32-34 | as written: success, and no keys file exists |
| Ssh.ChmodRefusedCorrected | internal/system/ssh.go:32-34 | corrected: the chmod failure on `.ssh` is returned |
| Agent.WifiServiceTerminated | internal/agent/agent.go:77-81 | the Wi-Fi service is four lines, each ended by a line break |
| Agent.WifiServiceLines | internal/agent/agent.go:77-81 | the service scans back to its lines, with name and passphrase exactly as configured |
| Agent.RootedChild | internal/agent/agent.go:36-76 | a file joined under a rooted directory has that directory as its parent |
| Agent.NoLongerAncestor | internal/agent/agent.go:33-36 | a longer path is not among the directories `MkdirAll` made |
| Agent.ConnManLayout | internal/agent/agent.go:16-76 | each written file is a child of the directory made before it; the three ConnMan files and the k3s file are four different paths, whatever the root |
| Agent.RootedAtSlash | internal/agent/agent.go:167 | rooting at `/` leaves an absolute path as it is |
| Agent.ConnManOnNode | internal/agent/agent.go:16-76 | at `/` the files are `/etc/connman/main.conf`, `/var/lib/connman/settings` and `/var/lib/connman/cloud-config.config` |
| Agent.WifiPlan | internal/agent/agent.go:57-64 | no name and no password is nothing to do; a password without a name is refused; a name is a network to configure |
| Agent.NodeWifiAccepted | internal/client/node.go:101-106 | the Wi-Fi section the workstation writes is never refused by the agent and names the requested network |
| Agent.WriteMainConf | internal/agent/agent.go:33-46 | success exactly when the directory can be made and main.conf written, and then main.conf holds the fixed configuration and the directories are `MadeAll` of its directory with 0755; on every outcome the files and directories are exactly `MainConfLeft` of the old ones (a refused directory changes nothing, a refused write leaves only the directory); a failure carries its context |
| Agent.ApplyWifi | internal/agent/agent.go:57-86 | nothing or a refusal with nothing written, or settings (0644) then the service (0600), the service directory made with 0755; success exactly when all can be written; on every outcome the files and directories are exactly `WifiLeft` of the old ones, each step done only when every step before it was |
| Agent.TailscaleTrace | internal/agent/agent.go:88-120 | the reference definition of `applyTailscale`: an empty auth key is refused before anything; then the wait for the daemon to start (its failure or the answers running out end it); then one status answer says whether the node is configured, a configured node succeeding with nothing run; otherwise `JoinTrace` on the answers left; it uses no more answers and replies than there are |
| Agent.JoinTrace | internal/agent/agent.go:102-119 | the reference definition of the join half: the network wait (one state command per reply), then `tailscale up` on the next reply, wrapped as a join failure when refused or when no reply is left, then the address wait, wrapped as an address failure; it uses no more answers and replies than there are |
| Agent.RepeatedAll | internal/system/network.go:13-14 | every polled command is the state command |
| Agent.ConfiguredNodeNotRejoined | internal/agent/agent.go:93-100 | a node the daemon reports configured is left alone: success, no command run |
| Agent.JoinCommands | internal/agent/agent.go:102-107 | the join half runs network checks, then the join once the network is ready |
| Agent.ChecksThenJoin | internal/agent/agent.go:88-120 | `applyTailscale` runs only state checks and, last, at most one join |
| Agent.ChecksThenOne | internal/agent/agent.go:102-104 | a run of checks followed by at most one other command has that command only last |
| Agent.JoinOnlyWhenUnconfigured | internal/agent/agent.go:89-104 | a join is attempted only with an auth key, after the daemon reported the node unconfigured and ConnMan reported the network ready, and it is the last command |
| Agent.TraceOfJoin | internal/agent/agent.go:88-102 | commands are run only by the join half, after an unconfigured answer |
| Agent.TailscaleSuccess | internal/agent/agent.go:88-120 | success means: the node was already configured and nothing ran, or the join was accepted, with or without authorization, and the node got an address |
| Agent.JoinSuccess | internal/agent/agent.go:102-119 | a successful join half ran `tailscale up` last, it was accepted, and an address came |
| Agent.UnauthorizedJoinSucceeds | internal/agent/agent.go:104-119 | a join that waits for an administrator's approval still succeeds once an address comes |
| Agent.ApplyTailscale | internal/agent/agent.go:88-120 | the method answers `TailscaleTrace`: its result, the answers and replies used, the commands run; no file changes |
| Agent.JoinTailnet | internal/agent/agent.go:102-111 | the join half answers `JoinTrace` |
| Agent.ApplyNetwork | internal/agent/agent.go:32-55 | main.conf, then Wi-Fi, then Tailscale, the first failure ending it; when every ConnMan file can be written, the files and directories become exactly `ConnManFiles`/`ConnManDirs` of the old ones and the outcome is `TailscaleTrace`; otherwise an error with no daemon answer or command used; on every outcome the files and directories are exactly `ConnManLeft` of the old ones; the k3s file is untouched |
| Agent.WriteConnMan | internal/agent/agent.go:33-50 | main.conf, then Wi-Fi; success exactly when every ConnMan file can be written, and then the files are exactly `ConnManFiles` and the directories exactly `ConnManDirs` of the old ones; on every outcome, failures included, the files and directories are exactly `ConnManLeft` of the old ones; nothing is run |
| Agent.ConnManFiles | internal/agent/agent.go:33-86 | after the network half main.conf holds the fixed configuration, the Wi-Fi files hold the named network, and no other file changes |
| Agent.ConnManLeftComplete | internal/agent/agent.go:32-86 | when every ConnMan step can succeed, the state the steps leave is exactly `ConnManFiles` and `ConnManDirs` |
| Agent.ConnManLeftBetween | internal/agent/agent.go:32-86 | whichever step fails, every file is as before or as the whole ConnMan part would leave it, no file disappears, no directory disappears, and every directory is as in `ConnManDirs`, so no existing directory changes |
| Agent.ConnManFilesBetween | internal/agent/agent.go:32-86 | the files half of `ConnManLeftBetween` |
| Agent.ConnManDirsBetween | internal/agent/agent.go:32-86 | the directories half of `ConnManLeftBetween` |
| Agent.WifiUntouched | internal/agent/agent.go:33-46 | making ConnMan's configuration directory and writing main.conf touch no Wi-Fi path |
| Agent.K3sCommand | internal/agent/agent.go:140-143 | `agent` exactly for a worker, otherwise `server` |
| Agent.JoinFive | internal/agent/agent.go:155 | joining five arguments puts the separator between them |
| Agent.K3sCommandLine | internal/agent/agent.go:144-155 | the command line is the subcommand, `--bind-address` with the quoted address, `--flannel-iface tailscale0` |
| Agent.K3sEnvContents | internal/agent/agent.go:137-155 | the environment holds exactly the token, `K3S_CLUSTER_INIT=true` and the command line |
| Agent.QuoteBodyWithout | internal/agent/agent.go:146 | quoting adds no character other than the escape |
| Agent.K3sArgsRecovered | internal/agent/agent.go:144-155 | splitting the command line at spaces gives back the arguments when the address has no space |
| Agent.ApplyK3s | internal/agent/agent.go:122-160 | an unknown role and a missing token are refused before any wait; an address failure is wrapped; other known roles are not implemented; cluster-init writes the environment file (0666) exactly when it can; success exactly for cluster-init with a token, an address and a file that was writable when it started |
| Agent.ApplyConfig | internal/agent/agent.go:22-30 | the network, then k3s, on the answers the network half left; once the network half ran the directories are exactly `ConnManDirs` of the old ones, and a later failure leaves exactly `ConnManFiles`; a network failure ends it with the k3s file untouched; success exactly when the ConnMan files can be written, Tailscale comes up, the node is cluster-init with a token, gets an address and can write the k3s file once the ConnMan directories exist, and then the files are exactly `ConfigFiles` for that address; only state checks and the join are run; any failure leaves exactly `ConnManLeft` of the old files and directories |
| Agent.ConfigFiles | internal/agent/agent.go:22-30 | after a successful apply the k3s file holds the environment for the address, the ConnMan files hold theirs, and no other file changes |
| Agent.EnvUntouchedOnNode | internal/agent/agent.go:22-30 | on a node the network half makes neither the k3s file nor its directory, so whether it can be written is the same before and after |
| Agent.Diverges | internal/agent/agent.go:33 | a path that differs from `p` at a position inside both is none of the directories `MkdirAll(p)` makes |
| Agent.StartService | internal/system/openrc.go:8-15 | runs `/etc/init.d/<name> start` once; success exactly on exit 0; a failure carries the output |
| Agent.StartIsNoSetupCommand | internal/agent/agent.go:167-170 | the k3s init script is none of the commands `ApplyConfig` runs |
| Agent.LogExtended | internal/agent/agent.go:167-172 | a command log that gains at most one new command keeps its prefix and has that command only last |
| Agent.ApplyAndStart | internal/agent/agent.go:167-174 | an apply failure is wrapped with the document's path and k3s is not started; the apply succeeds exactly as `ApplyConfig` does, and then the files are exactly `ConfigFiles` and the directories `ConnManDirs` of the old ones; after it, success exactly when the next command reply is a success, and waiting when none is left; success means k3s was started last; a failed apply leaves exactly `ConnManLeft` of the old files and directories |
| Agent.StartAgent | internal/agent/agent.go:162-175 | a read failure and an unparsable document are wrapped as `ReadConfig` does and change nothing; k3s is started only after the document was applied, which succeeds exactly as `ApplyConfig` does and then leaves exactly `ConfigFiles` and `ConnManDirs`; after it, success exactly when the next command reply is a success; success means k3s was started last; a failed apply leaves exactly `ConnManLeft` of the old files and directories |

## Left out

- YAML, JSON and godotenv serialization are not modelled. Stored records are
  values that are either decodable (`Encoded`) or not (`Garbled`), and
  `OsConfig.Config` is written and read as a value. `Registry.Store.GetCluster`
  and `Registry.Store.GetNode` report a garbled file as `Undecodable`.
- Agent.StartAgent: `yaml.Unmarshal` accepting partial or unknown documents
  is not modelled; a file that is not a configuration document is a parse
  error.
- Path cleaning by `path.Join` and `filepath.Join` is modelled only for
  clean names (no `.`, `..` or doubled slashes). `Host.Rooted` drops trailing
  slashes from the root.
- The umask, and the mode of a directory that `MkdirAll` finds to be a file
  halfway down, are not modelled. `Host.Machine.MkdirAll` fails only on a
  fault or when the target itself is a file.
- `bufio.Scanner`'s 64 KiB token limit is not modelled. Text.ScanLines
  scans lines of any length.
- Text.Quote covers `"` and `\`; the escapes `strconv.Quote` writes for
  control and non-printable characters are not modelled.
- Tailscale.WaitDaemon, Tailscale.WaitIP and Network.WaitNetwork poll
  without end in the source. Here they stop with `Waiting` when the scripted
  answers run out. The five-second sleeps are not modelled.
- The Tailscale local API and the `tailscale`, `connmanctl`, `chpasswd` and
  init-script commands are scripted answers of `Host.Machine`. Their own
  behaviour is not modelled.
- Client.GenerateToken: the 32 bytes of `crypto/rand` are a parameter.
- Client.SSHAuthorizedKey: deriving the public key from the private key
  (pkg/ssh) is a parameter.
- Client.CreateRPi4Node: `installImage` (downloading, decompressing and
  writing the image, and the boot partition) is a parameter that succeeds or
  fails with a reason. `internal/cluster` and the `cmd` front ends are not
  part of this model.
- Messages printed with `fmt.Println`/`Printf` are not modelled.
- The macOS variant of `SetHostname` (hostname_darwin.go) is not part of this
  model.
- Concurrency is not modelled: each store and machine is used by one
  program at a time.
- A `chpasswd` command that could not be started and one that exited with a
  failure are both `PasswordNotSet` with the command's output, which is
  empty when it did not start.

## Findings

| source | as written | input that shows it | evidently intended | confidence | as-written member | corrected member |
|---|---|---|---|---|---|---|
| internal/client/store.go:119-124 | `ListNodes` reads `clusters/<name>/nodes` and returns the error when the directory does not exist; `SaveCluster` never creates it | a cluster just made by `CreateCluster`, with no nodes: `ListNodes` fails with "does not exist", so `CreateRPi4Node` cannot create the first node and `ClusterServer` fails instead of reporting no control-plane nodes | a missing nodes directory lists as no nodes | not executed | Client.FreshClusterListing | Client.CreateRPi4NodeCorrected |
| internal/client/cluster.go:65-73 | `cpNode = &node` takes the address of the range variable, which before Go 1.22 is one variable reused by every iteration | nodes `[control-plane, worker]`: after the loop `cpNode` points at the worker, and the worker's host becomes the endpoint | the endpoint is the first cluster-init node, or else a control-plane node | not executed | Client.AliasedServerPicksWorker | Client.ClusterServerCorrected |
| internal/system/ssh.go:32-34 | a failing `os.Chmod` of `.ssh` makes `SetAuthorizedKeys` return `nil` | a user whose `.ssh` is missing, is created, and then cannot have its mode set: the answer is success, and no authorized_keys file is written | the chmod error is returned | not executed | Ssh.ChmodRefusedScenario | Ssh.ChmodRefusedCorrected |
