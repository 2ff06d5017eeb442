/**
 * Naming the node (internal/system/hostname_linux.go): the kernel's host
 * name, `/etc/hostname`, and the `127.0.1.1` record of `/etc/hosts`.
 */
module Hostname {
  import opened Errors
  import opened Text
  import opened Host

  const HostnamePath: string := "/etc/hostname"
  const HostsPath: string := "/etc/hosts"
  /** The loopback address Debian-style systems map the machine's own name to. */
  const LoopbackAddress: string := "127.0.1.1"

  /** The record naming this machine: the address, a tab, the name. */
  function HostLine(hostname: string): string {
    LoopbackAddress + "\t" + hostname
  }

  /** A line whose first white-space separated field is the loopback address. */
  predicate IsHostEntry(line: string) {
    var f := Fields(line);
    |f| > 0 && f[0] == LoopbackAddress
  }

  /** A scanned line that, once trimmed, is a record of the loopback address. */
  predicate IsRecordLine(line: string) {
    IsHostEntry(TrimSpace(line))
  }

  /** What becomes of one scanned line: trimmed, or replaced when it is the machine's record. */
  function RewrittenLine(line: string, hostname: string): string {
    if IsRecordLine(line) then HostLine(hostname) else TrimSpace(line)
  }

  /** Every line rewritten, in order. */
  function RewrittenLines(lines: seq<string>, hostname: string): (r: seq<string>)
    ensures |r| == |lines|
    ensures forall i :: 0 <= i < |lines| ==> r[i] == RewrittenLine(lines[i], hostname)
    decreases |lines|
  {
    if lines == [] then []
    else RewrittenLines(lines[..|lines| - 1], hostname) + [RewrittenLine(lines[|lines| - 1], hostname)]
  }

  predicate HasHostEntry(lines: seq<string>) {
    Any(lines, IsRecordLine)
  }

  /**
   * The lines of the new hosts file: every record of the loopback address
   * names the machine, every other line is kept trimmed and in place, and
   * one record is appended when there was none.
   */
  function NewHostLines(lines: seq<string>, hostname: string): (r: seq<string>)
    ensures |r| == if HasHostEntry(lines) then |lines| else |lines| + 1
    ensures forall i :: 0 <= i < |lines| && IsRecordLine(lines[i]) ==> r[i] == HostLine(hostname)
    ensures forall i :: 0 <= i < |lines| && !IsRecordLine(lines[i]) ==> r[i] == TrimSpace(lines[i])
    ensures !HasHostEntry(lines) ==> r[|lines|] == HostLine(hostname)
  {
    var kept := RewrittenLines(lines, hostname);
    if HasHostEntry(lines) then kept else kept + [HostLine(hostname)]
  }

  /** The new content of `/etc/hosts` for the old one. */
  function RewrittenHosts(content: string, hostname: string): string {
    Join(NewHostLines(ScanLines(content), hostname), "\n") + "\n"
  }

  /** The new content is never empty, and every line of it, the last included, ends with a newline. */
  lemma RewrittenHostsTerminated(content: string, hostname: string)
    ensures RewrittenHosts(content, hostname) == Terminated(NewHostLines(ScanLines(content), hostname))
  {
    var lines := ScanLines(content);
    var n := NewHostLines(lines, hostname);
    assert |n| >= 1;
    JoinTerminated(n);
  }

  /** Trimming takes characters away and never brings one in. */
  lemma TrimSpaceWithout(s: string, c: char)
    requires c !in s
    ensures c !in TrimSpace(s)
  {
    var l := TrimLeft(s);
    assert l == s[|s| - |l|..];
    assert c !in l;
    var t := TrimRight(l);
    assert t == l[..|t|];
  }

  /** The machine's record, scanned back as a line, is recognised again. */
  lemma HostLineIsEntry(hostname: string)
    ensures IsRecordLine(DropCR(HostLine(hostname)))
  {
    var w := LoopbackAddress;
    var line := HostLine(hostname);
    var d := DropCR(line);
    assert |d| >= |w| + 1 && d == line[..|d|];
    assert d[..|w|] == w && d[|w|] == '\t';
    assert !IsSpace(d[0]);
    var l := TrimLeft(d);
    assert l == d;
    var t := TrimRight(l);
    assert !IsSpace(d[|w| - 1]);
    assert |t| >= |w|;
    var rest := t[|w|..];
    assert t == w + rest;
    assert rest == [] || rest[0] == '\t';
    assert NoSpace(w);
    FirstField(w, rest);
  }

  /** A rewritten line, scanned and rewritten again, stays as it is. */
  lemma RewrittenLineStable(line: string, hostname: string)
    ensures RewrittenLine(DropCR(RewrittenLine(line, hostname)), hostname) == RewrittenLine(line, hostname)
  {
    var t := TrimSpace(line);
    if IsRecordLine(line) {
      HostLineIsEntry(hostname);
    } else {
      assert t == [] || !IsSpace(t[|t| - 1]);
      assert DropCR(t) == t;
      TrimSpaceIdempotent(line);
    }
  }

  /** No line of the new hosts file holds a newline. */
  lemma NewHostLinesSingle(lines: seq<string>, hostname: string)
    requires '\n' !in hostname
    requires forall i :: 0 <= i < |lines| ==> '\n' !in lines[i]
    ensures forall i :: 0 <= i < |NewHostLines(lines, hostname)| ==> '\n' !in NewHostLines(lines, hostname)[i]
  {
    var n := NewHostLines(lines, hostname);
    forall i | 0 <= i < |n|
      ensures '\n' !in n[i]
    {
      if i < |lines| && !IsRecordLine(lines[i]) {
        TrimSpaceWithout(lines[i], '\n');
      }
    }
  }

  /** The lines of a rewritten file, scanned back, rewrite to themselves. */
  lemma RescannedStable(lines: seq<string>, hostname: string, again: seq<string>)
    requires |again| == |NewHostLines(lines, hostname)|
    requires forall i :: 0 <= i < |again| ==> again[i] == DropCR(NewHostLines(lines, hostname)[i])
    ensures forall i :: 0 <= i < |again| ==> RewrittenLine(again[i], hostname) == NewHostLines(lines, hostname)[i]
  {
    var n := NewHostLines(lines, hostname);
    forall i | 0 <= i < |n|
      ensures RewrittenLine(again[i], hostname) == n[i]
    {
      if i < |lines| {
        RewrittenLineStable(lines[i], hostname);
      } else {
        HostLineIsEntry(hostname);
      }
    }
  }

  /** The lines of a rewritten file, scanned back, hold the machine's record. */
  lemma RescannedHasEntry(lines: seq<string>, hostname: string, again: seq<string>)
    requires |again| == |NewHostLines(lines, hostname)|
    requires forall i :: 0 <= i < |again| ==> again[i] == DropCR(NewHostLines(lines, hostname)[i])
    ensures HasHostEntry(again)
  {
    HostLineIsEntry(hostname);
    var i: nat;
    if HasHostEntry(lines) {
      i := AnyIndex(lines, IsRecordLine);
    } else {
      i := |lines|;
    }
    assert again[i] == DropCR(HostLine(hostname));
    AnyAt(again, IsRecordLine, i);
  }

  /** Lines that each rewrite to themselves and hold the machine's record are a fixed point. */
  lemma FixedLines(again: seq<string>, n: seq<string>, hostname: string)
    requires |again| == |n| && HasHostEntry(again)
    requires forall i :: 0 <= i < |again| ==> RewrittenLine(again[i], hostname) == n[i]
    ensures NewHostLines(again, hostname) == n
  {
  }

  /** Rewriting the hosts file twice with the same name gives what rewriting it once gives. */
  lemma RewriteIdempotent(content: string, hostname: string)
    requires '\n' !in hostname
    ensures RewrittenHosts(RewrittenHosts(content, hostname), hostname) == RewrittenHosts(content, hostname)
  {
    var lines := ScanLines(content);
    var n := NewHostLines(lines, hostname);
    RewrittenHostsTerminated(content, hostname);
    NewHostLinesSingle(lines, hostname);
    ScanTerminated(n);
    var again := ScanLines(Terminated(n));
    RescannedStable(lines, hostname, again);
    RescannedHasEntry(lines, hostname, again);
    FixedLines(again, n, hostname);
  }

  /** The loop of `updateHostsFile` over the scanned lines. */
  method RewriteLines(lines: seq<string>, hostname: string) returns (newLines: seq<string>)
    ensures newLines == NewHostLines(lines, hostname)
  {
    var hostLine := HostLine(hostname);
    newLines := [];
    var updated := false;
    for i := 0 to |lines|
      invariant |newLines| == i
      invariant newLines == RewrittenLines(lines[..i], hostname)
      invariant updated <==> HasHostEntry(lines[..i])
    {
      assert lines[..i + 1][..i] == lines[..i];
      assert lines[..i + 1][i] == lines[i];
      var line := TrimSpace(lines[i]);
      var fields := Fields(line);
      if |fields| > 0 && fields[0] == LoopbackAddress {
        newLines := newLines + [hostLine];
        updated := true;
      } else {
        newLines := newLines + [line];
      }
    }
    assert lines[..|lines|] == lines;
    if !updated {
      newLines := newLines + [hostLine];
    }
  }

  /**
   * `updateHostsFile`: read `/etc/hosts` line by line, rewrite it, and write
   * it back with mode 0644 (kept when the file exists).
   */
  method UpdateHostsFile(m: Machine, hostname: string) returns (r: Result<()>)
    modifies m
    ensures old(m.ReadText(HostsPath)).Err? ==> r == Err(old(m.ReadText(HostsPath)).error)
    ensures old(m.ReadText(HostsPath)).Ok? ==> (r.Ok? <==> old(m.CanWrite(HostsPath)))
    ensures r.Ok? ==>
      m.files == Written(old(m.files), HostsPath, Text(RewrittenHosts(old(m.ReadText(HostsPath)).value, hostname)), Perm0644)
    ensures r.Err? ==> m.files == old(m.files)
    ensures m.dirs == old(m.dirs) && m.hostname == old(m.hostname)
    ensures m.replies == old(m.replies) && m.statuses == old(m.statuses) && m.executed == old(m.executed)
  {
    var content :- m.ReadText(HostsPath);
    var newLines := RewriteLines(ScanLines(content), hostname);
    r := m.WriteFile(HostsPath, Text(Join(newLines, "\n") + "\n"), Perm0644);
  }

  /**
   * `SetHostname`: refuse an empty name, then set the kernel's host name,
   * then write `/etc/hostname`, then rewrite `/etc/hosts`; the first step
   * that fails ends the operation, and the steps before it stay done.
   */
  method SetHostname(m: Machine, hostname: string) returns (r: Result<()>)
    modifies m
    ensures hostname == "" ==> r == Err(HostnameEmpty) && m.hostname == old(m.hostname) && m.files == old(m.files)
    ensures hostname != "" && m.sethostnameFails ==>
      r == Err(SethostnameFailed) && m.hostname == old(m.hostname) && m.files == old(m.files)
    ensures hostname != "" && !m.sethostnameFails ==> m.hostname == hostname
    ensures hostname != "" && !m.sethostnameFails && !old(m.CanWrite(HostnamePath)) ==>
      r.Err? && m.files == old(m.files)
    ensures hostname != "" && !m.sethostnameFails && old(m.CanWrite(HostnamePath)) ==>
      HostnamePath in m.files && m.files[HostnamePath].content == Text(hostname + "\n")
    ensures hostname != "" && !m.sethostnameFails && old(m.CanWrite(HostnamePath)) && r.Err? ==>
      m.files == Written(old(m.files), HostnamePath, Text(hostname + "\n"), Perm0644)
    ensures r.Ok? <==>
      && hostname != "" && !m.sethostnameFails && old(m.CanWrite(HostnamePath))
      && old(m.ReadText(HostsPath)).Ok? && old(m.CanWrite(HostsPath))
    ensures r.Ok? ==>
      m.files == Written(Written(old(m.files), HostnamePath, Text(hostname + "\n"), Perm0644),
                         HostsPath, Text(RewrittenHosts(old(m.ReadText(HostsPath)).value, hostname)), Perm0644)
    ensures m.dirs == old(m.dirs)
    ensures m.replies == old(m.replies) && m.statuses == old(m.statuses) && m.executed == old(m.executed)
  {
    if hostname == "" {
      return Err(HostnameEmpty);
    }
    var kernel := m.Sethostname(hostname);
    if kernel.Err? {
      return Err(kernel.error);
    }
    ghost var hosts := m.ReadText(HostsPath);
    var written := m.WriteFile(HostnamePath, Text(hostname + "\n"), Perm0644);
    if written.Err? {
      return Err(written.error);
    }
    assert HostsPath in m.files <==> HostsPath in old(m.files);
    assert HostsPath in m.files ==> m.files[HostsPath] == old(m.files)[HostsPath];
    assert m.ReadText(HostsPath) == hosts;
    r := UpdateHostsFile(m, hostname);
  }
}
