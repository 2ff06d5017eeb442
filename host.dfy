/**
 * The node's operating system as the agent sees it: a file system, the
 * kernel's host name, the commands the agent runs, and the Tailscale
 * daemon's status answers.
 *
 * Everything the environment decides is given in advance: the set of
 * file-system operations that fail, whether `sethostname(2)` fails, the
 * replies the executed commands will produce in order, and the status
 * answers `tailscaled` will give in order. A program that asks for more
 * replies than the script holds gets `Waiting`, standing for a program
 * that would still be blocked. The agent runs as root, so what it creates
 * is owned by user 0 and group 0; the umask is not modelled.
 */
module Host {
  import opened Errors
  import opened Text
  import opened OsConfig

  datatype Attr = Attr(mode: int, uid: int, gid: int)

  /** What a file holds: text, an environment file written by godotenv, or a configuration document. */
  datatype Content = Text(text: string) | EnvFile(vars: map<string, string>) | Document(config: Config)

  datatype FileData = FileData(content: Content, attr: Attr)

  /** How a command ended: with an exit status and its combined output, or without starting. */
  datatype CmdReply = Exited(code: int, output: string) | Failed(reason: string)

  /** An answer of the Tailscale local API: an error, or the backend state and the node's addresses. */
  datatype StatusReply = StatusError(reason: string) | Status(backendState: string, ips: seq<string>)

  datatype Command = Command(argv: seq<string>, stdin: string)

  /** The command ran and exited with status 0. */
  predicate Succeeded(reply: CmdReply) {
    reply.Exited? && reply.code == 0
  }

  /** The combined output of a command; one that did not start printed nothing. */
  function OutputOf(reply: CmdReply): string {
    if reply.Exited? then reply.output else ""
  }

  const RootUid: int := 0

  /** Index of the last slash of `p`. */
  function LastSlash(p: string): (r: Option<nat>)
    ensures r.Some? ==> r.value < |p| && p[r.value] == '/' && forall j :: r.value < j < |p| ==> p[j] != '/'
    ensures r.None? ==> '/' !in p
    decreases |p|
  {
    if p == [] then None
    else if p[|p| - 1] == '/' then Some(|p| - 1)
    else LastSlash(p[..|p| - 1])
  }

  /** The directory a path names an entry of (`path.Dir` for clean paths). */
  function Parent(p: string): string {
    match LastSlash(p)
    case None => "."
    case Some(0) => "/"
    case Some(i) => p[..i]
  }

  /** The entry `name` of the directory `dir` has `dir` as its parent. */
  lemma ParentOfChild(dir: string, name: string)
    requires dir != [] && '/' !in name
    ensures Parent(dir + "/" + name) == (if dir == "/" then "/" else dir)
  {
    var p := dir + "/" + name;
    assert p[|dir|] == '/';
    assert forall j :: |dir| < j < |p| ==> p[j] == name[j - |dir| - 1];
    var k := LastSlash(p);
    assert k.Some? && k.value >= |dir|;
    assert k.value == |dir|;
    if dir != "/" {
      assert p[..|dir|] == dir;
    }
  }

  /** The directories `os.MkdirAll(p)` makes sure of: `p` and every proper prefix ending before a slash. */
  function Ancestors(p: string): (r: set<string>)
    ensures p in r
  {
    (set i | 0 < i < |p| && p[i] == '/' :: p[..i]) + {p}
  }

  /** The directories after `os.MkdirAll(p, perm)`: the missing ones among `p` and its ancestors are added with `perm`, owned by root; the others are kept. */
  function MadeAll(dirs: map<string, Attr>, p: string, perm: int): (r: map<string, Attr>)
    ensures r.Keys == dirs.Keys + Ancestors(p)
    ensures forall d :: d in dirs ==> r[d] == dirs[d]
    ensures forall d :: d in r && d !in dirs ==> r[d] == Attr(perm, RootUid, RootUid)
  {
    dirs + map d | d in Ancestors(p) && d !in dirs :: Attr(perm, RootUid, RootUid)
  }

  /** `path.Join(root, p)` for an absolute `p`. */
  function Rooted(root: string, p: string): string {
    TrimTrailingSlashes(root) + p
  }

  /** The file system after writing `content` to `p`: the content is replaced, the attributes of an existing file are kept. */
  function Written(files: map<string, FileData>, p: string, content: Content, perm: int): (m: map<string, FileData>)
    ensures p in m && m[p].content == content
    ensures m[p].attr == (if p in files then files[p].attr else Attr(perm, RootUid, RootUid))
    ensures forall q :: q in files && q != p ==> q in m && m[q] == files[q]
    ensures forall q :: q in m ==> q in files || q == p
  {
    files[p := FileData(content, if p in files then files[p].attr else Attr(perm, RootUid, RootUid))]
  }

  class Machine {
    /** File-system operations that fail. */
    const faults: set<Fault>
    /** Whether the kernel refuses a new host name. */
    const sethostnameFails: bool
    /** The kernel's host name. */
    var hostname: string
    var dirs: map<string, Attr>
    var files: map<string, FileData>
    /** The replies of the commands still to be run, in order. */
    var replies: seq<CmdReply>
    /** The answers of `tailscaled` still to be given, in order. */
    var statuses: seq<StatusReply>
    /** The commands that have completed so far, in order. */
    var executed: seq<Command>

    constructor (faults: set<Fault>, sethostnameFails: bool, hostname: string,
                 dirs: map<string, Attr>, files: map<string, FileData>,
                 replies: seq<CmdReply>, statuses: seq<StatusReply>)
      ensures this.faults == faults && this.sethostnameFails == sethostnameFails
      ensures this.hostname == hostname && this.dirs == dirs && this.files == files
      ensures this.replies == replies && this.statuses == statuses && executed == []
    {
      this.faults := faults;
      this.sethostnameFails := sethostnameFails;
      this.hostname := hostname;
      this.dirs := dirs;
      this.files := files;
      this.replies := replies;
      this.statuses := statuses;
      executed := [];
    }

    /** `os.Stat`. */
    function Stat(p: string): (r: Result<()>)
      reads this
      ensures r.Ok? <==> Fault(Op.Stat, p) !in faults && (p in dirs || p in files)
      ensures r.Err? && r.error.NotExist? <==> Fault(Op.Stat, p) !in faults && p !in dirs && p !in files
    {
      if Fault(Op.Stat, p) in faults then Err(IoFailure(Op.Stat, p))
      else if p in dirs || p in files then Ok(())
      else Err(NotExist(p))
    }

    /** `os.ReadFile`. */
    function ReadFile(p: string): (r: Result<Content>)
      reads this
      ensures r.Ok? <==> Fault(Read, p) !in faults && p !in dirs && p in files
      ensures r.Ok? ==> r.value == files[p].content
      ensures r.Err? && r.error.NotExist? <==> Fault(Read, p) !in faults && p !in dirs && p !in files
    {
      if Fault(Read, p) in faults then Err(IoFailure(Read, p))
      else if p in dirs then Err(IsADirectory(p))
      else if p !in files then Err(NotExist(p))
      else Ok(files[p].content)
    }

    /** A file read as lines of text; other contents are not modelled as text. */
    function ReadText(p: string): (r: Result<string>)
      reads this
      ensures r.Ok? <==> ReadFile(p).Ok? && ReadFile(p).value.Text?
      ensures r.Ok? ==> files[p].content == Text(r.value)
    {
      var c :- ReadFile(p);
      if c.Text? then Ok(c.text) else Err(Undecodable(p))
    }

    /** Whether `os.WriteFile(p, …)` succeeds: not refused, not a directory, and its parent directory exists. */
    predicate CanWrite(p: string)
      reads this
    {
      Fault(Write, p) !in faults && p !in dirs && Parent(p) in dirs
    }

    /** `os.WriteFile(p, content, perm)`. */
    method WriteFile(p: string, content: Content, perm: int) returns (r: Result<()>)
      modifies this
      ensures r.Ok? <==> old(CanWrite(p))
      ensures r.Ok? ==> files == Written(old(files), p, content, perm)
      ensures r.Err? ==> files == old(files)
      ensures r.Err? && Fault(Write, p) in faults ==> r.error == IoFailure(Write, p)
      ensures r.Err? && Fault(Write, p) !in faults && p !in old(dirs) ==> r.error == NotExist(p)
      ensures dirs == old(dirs) && hostname == old(hostname)
      ensures replies == old(replies) && statuses == old(statuses) && executed == old(executed)
    {
      if Fault(Write, p) in faults {
        return Err(IoFailure(Write, p));
      }
      if p in dirs {
        return Err(IsADirectory(p));
      }
      if Parent(p) !in dirs {
        return Err(NotExist(p));
      }
      files := Written(files, p, content, perm);
      r := Ok(());
    }

    /** `os.MkdirAll(p, perm)`: every missing directory on the way is created with `perm`; existing ones are kept. */
    method MkdirAll(p: string, perm: int) returns (r: Result<()>)
      modifies this
      ensures r.Ok? <==> Fault(Op.Mkdir, p) !in faults && p !in files
      ensures r.Err? ==> dirs == old(dirs)
      ensures r.Ok? ==> dirs == MadeAll(old(dirs), p, perm)
      ensures files == old(files) && hostname == old(hostname)
      ensures replies == old(replies) && statuses == old(statuses) && executed == old(executed)
    {
      if Fault(Op.Mkdir, p) in faults {
        return Err(IoFailure(Op.Mkdir, p));
      }
      if p in files {
        return Err(NotADirectory(p));
      }
      dirs := MadeAll(dirs, p, perm);
      r := Ok(());
    }

    /** `os.Mkdir(p, perm)`: the parent must exist and `p` must not. */
    method Mkdir(p: string, perm: int) returns (r: Result<()>)
      modifies this
      ensures r.Ok? <==> Fault(Op.Mkdir, p) !in faults && p !in old(dirs) && p !in files && Parent(p) in old(dirs)
      ensures r.Ok? ==> dirs == old(dirs)[p := Attr(perm, RootUid, RootUid)]
      ensures r.Err? ==> dirs == old(dirs)
      ensures files == old(files) && hostname == old(hostname)
      ensures replies == old(replies) && statuses == old(statuses) && executed == old(executed)
    {
      if Fault(Op.Mkdir, p) in faults {
        return Err(IoFailure(Op.Mkdir, p));
      }
      if p in dirs || p in files {
        return Err(IoFailure(Op.Mkdir, p));
      }
      if Parent(p) !in dirs {
        return Err(NotExist(p));
      }
      dirs := dirs[p := Attr(perm, RootUid, RootUid)];
      r := Ok(());
    }

    /** `os.Chmod(p, mode)`. */
    method Chmod(p: string, mode: int) returns (r: Result<()>)
      modifies this
      ensures r.Ok? <==> Fault(Op.Chmod, p) !in faults && (p in old(dirs) || p in old(files))
      ensures r.Err? ==> r.error == if Fault(Op.Chmod, p) in faults then IoFailure(Op.Chmod, p) else NotExist(p)
      ensures r.Ok? && p in old(dirs) ==> dirs == old(dirs)[p := old(dirs)[p].(mode := mode)] && files == old(files)
      ensures r.Ok? && p !in old(dirs) ==>
        dirs == old(dirs) && files == old(files)[p := old(files)[p].(attr := old(files)[p].attr.(mode := mode))]
      ensures r.Err? ==> dirs == old(dirs) && files == old(files)
      ensures hostname == old(hostname)
      ensures replies == old(replies) && statuses == old(statuses) && executed == old(executed)
    {
      if Fault(Op.Chmod, p) in faults {
        return Err(IoFailure(Op.Chmod, p));
      }
      if p in dirs {
        dirs := dirs[p := dirs[p].(mode := mode)];
      } else if p in files {
        files := files[p := files[p].(attr := files[p].attr.(mode := mode))];
      } else {
        return Err(NotExist(p));
      }
      r := Ok(());
    }

    /** `os.Chown(p, uid, gid)`. */
    method Chown(p: string, uid: int, gid: int) returns (r: Result<()>)
      modifies this
      ensures r.Ok? <==> Fault(Op.Chown, p) !in faults && (p in old(dirs) || p in old(files))
      ensures r.Err? ==> r.error == if Fault(Op.Chown, p) in faults then IoFailure(Op.Chown, p) else NotExist(p)
      ensures r.Ok? && p in old(dirs) ==>
        dirs == old(dirs)[p := old(dirs)[p].(uid := uid, gid := gid)] && files == old(files)
      ensures r.Ok? && p !in old(dirs) ==>
        dirs == old(dirs) && files == old(files)[p := old(files)[p].(attr := old(files)[p].attr.(uid := uid, gid := gid))]
      ensures r.Err? ==> dirs == old(dirs) && files == old(files)
      ensures hostname == old(hostname)
      ensures replies == old(replies) && statuses == old(statuses) && executed == old(executed)
    {
      if Fault(Op.Chown, p) in faults {
        return Err(IoFailure(Op.Chown, p));
      }
      if p in dirs {
        dirs := dirs[p := dirs[p].(uid := uid, gid := gid)];
      } else if p in files {
        files := files[p := files[p].(attr := files[p].attr.(uid := uid, gid := gid))];
      } else {
        return Err(NotExist(p));
      }
      r := Ok(());
    }

    /** `syscall.Sethostname`. */
    method Sethostname(name: string) returns (r: Result<()>)
      modifies this
      ensures r.Ok? <==> !sethostnameFails
      ensures r.Ok? ==> hostname == name
      ensures r.Err? ==> r.error == SethostnameFailed && hostname == old(hostname)
      ensures dirs == old(dirs) && files == old(files)
      ensures replies == old(replies) && statuses == old(statuses) && executed == old(executed)
    {
      if sethostnameFails {
        return Err(SethostnameFailed);
      }
      hostname := name;
      r := Ok(());
    }

    /** Run a command and collect its combined output: it takes the next scripted reply and is logged. */
    method Exec(argv: seq<string>, stdin: string) returns (r: Result<CmdReply>)
      modifies this
      ensures old(replies) == [] ==> r == Err(Waiting("command")) && replies == [] && executed == old(executed)
      ensures old(replies) != [] ==>
        && r == Ok(old(replies)[0]) && replies == old(replies)[1..]
        && executed == old(executed) + [Command(argv, stdin)]
      ensures dirs == old(dirs) && files == old(files) && hostname == old(hostname) && statuses == old(statuses)
    {
      if replies == [] {
        return Err(Waiting("command"));
      }
      executed := executed + [Command(argv, stdin)];
      r := Ok(replies[0]);
      replies := replies[1..];
    }

    /** Ask `tailscaled` for its status: take the next scripted answer. */
    method QueryStatus() returns (r: Result<StatusReply>)
      modifies this
      ensures old(statuses) == [] ==> r == Err(Waiting("tailscaled")) && statuses == []
      ensures old(statuses) != [] ==> r == Ok(old(statuses)[0]) && statuses == old(statuses)[1..]
      ensures dirs == old(dirs) && files == old(files) && hostname == old(hostname)
      ensures replies == old(replies) && executed == old(executed)
    {
      if statuses == [] {
        return Err(Waiting("tailscaled"));
      }
      r := Ok(statuses[0]);
      statuses := statuses[1..];
    }
  }
}
