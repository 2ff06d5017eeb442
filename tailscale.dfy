/**
 * The node's use of Tailscale (internal/tailscale/tailscale.go): reading
 * the daemon's backend state, joining the tailnet with `tailscale up`, and
 * the two waits, for the daemon and for the node's Tailscale address.
 *
 * The waits poll without bound in the source, sleeping five seconds between
 * answers. Here they read the machine's scripted answers; `Poll` records how
 * many answers a wait used and what it returned, and a wait that uses up
 * the script returns `Waiting`.
 */
module Tailscale {
  import opened Errors
  import opened Text
  import opened Host

  /** Backend states of `tailscaled` (the names of `ipn.State`). */
  const NoState: string := "NoState"
  const InUseOtherUser: string := "InUseOtherUser"
  const NeedsLogin: string := "NeedsLogin"
  const NeedsMachineAuth: string := "NeedsMachineAuth"
  const Stopped: string := "Stopped"
  const Starting: string := "Starting"
  const Running: string := "Running"

  const UnauthorizedMarker: string := "authorize your machine"

  /** `isTailscaledStarted`: the daemon has left its start-up states. */
  predicate IsStarted(state: string) {
    state == NeedsLogin || state == NeedsMachineAuth || state == Running || state == Stopped
  }

  /** The node has joined a tailnet, whether or not an administrator has approved it yet. */
  predicate IsConfiguredState(state: string) {
    state == NeedsMachineAuth || state == Running
  }

  predicate StartedAnswer(s: StatusReply) {
    s.Status? && IsStarted(s.backendState)
  }

  /** `IsConfigured` on one status answer: a status error is passed on. */
  function Configured(s: StatusReply): (r: Result<bool>)
    ensures r.Err? <==> s.StatusError?
    ensures r.Err? ==> r.error == StatusFailed(s.reason)
    ensures r.Ok? ==> (r.value <==> IsConfiguredState(s.backendState))
    ensures r == Ok(true) ==> StartedAnswer(s)
  {
    match s
    case StatusError(reason) => Err(StatusFailed(reason))
    case Status(state, _) => Ok(IsConfiguredState(state))
  }

  /** The started states are exactly NeedsLogin, NeedsMachineAuth, Running and Stopped; of the named states, the others are not started. */
  lemma StartedStates()
    ensures IsStarted(NeedsLogin) && IsStarted(NeedsMachineAuth) && IsStarted(Running) && IsStarted(Stopped)
    ensures !IsStarted(NoState) && !IsStarted(Starting) && !IsStarted(InUseOtherUser)
    ensures !IsConfiguredState(NeedsLogin) && !IsConfiguredState(Stopped)
    ensures forall s :: IsConfiguredState(s) ==> IsStarted(s)
  {
  }

  function UpArgs(authKey: string): seq<string> {
    ["tailscale", "up", "--auth-key", authKey, "--ssh", "--timeout", "10s"]
  }

  /**
   * How `Up` reads the reply of `tailscale up`: success means the machine
   * is authorized; a failure that asks for the machine to be authorized is
   * still a join, without authorization.
   */
  function UpResult(reply: CmdReply): (r: Result<bool>)
    ensures r == Ok(true) <==> reply.Exited? && reply.code == 0
    ensures r == Ok(false) <==> reply.Exited? && reply.code != 0 && Contains(reply.output, UnauthorizedMarker)
    ensures reply.Exited? && reply.code != 0 && !Contains(reply.output, UnauthorizedMarker) ==>
      r == Err(CommandOutput(reply.output))
    ensures reply.Failed? ==> r == Err(ExecFailed(reply.reason))
  {
    match reply
    case Failed(reason) => Err(ExecFailed(reason))
    case Exited(code, output) =>
      if code == 0 then Ok(true)
      else if Contains(output, UnauthorizedMarker) then Ok(false)
      else Err(CommandOutput(output))
  }

  /** `Up`: run `tailscale up` with the auth key and classify its reply. */
  method Up(m: Machine, authKey: string) returns (r: Result<bool>)
    modifies m
    ensures old(m.replies) != [] ==>
      && r == UpResult(old(m.replies)[0]) && m.replies == old(m.replies)[1..]
      && m.executed == old(m.executed) + [Command(UpArgs(authKey), "")]
    ensures old(m.replies) == [] ==> r == Err(Waiting("command")) && m.replies == [] && m.executed == old(m.executed)
    ensures m.dirs == old(m.dirs) && m.files == old(m.files) && m.hostname == old(m.hostname)
    ensures m.statuses == old(m.statuses)
  {
    var reply := m.Exec(UpArgs(authKey), "");
    if reply.Err? {
      return Err(reply.error);
    }
    r := UpResult(reply.value);
  }

  /** `IsConfigured`: ask the daemon once whether the node has joined a tailnet. */
  method IsConfigured(m: Machine) returns (r: Result<bool>)
    modifies m
    ensures old(m.statuses) == [] ==> r == Err(Waiting("tailscaled")) && m.statuses == []
    ensures old(m.statuses) != [] ==> r == Configured(old(m.statuses)[0]) && m.statuses == old(m.statuses)[1..]
    ensures r == Ok(true) ==> old(m.statuses) != [] && StartedAnswer(old(m.statuses)[0])
    ensures m.dirs == old(m.dirs) && m.files == old(m.files) && m.hostname == old(m.hostname)
    ensures m.replies == old(m.replies) && m.executed == old(m.executed)
  {
    var s := m.QueryStatus();
    if s.Err? {
      return Err(s.error);
    }
    r := Configured(s.value);
  }

  /** The outcome of a wait: how many answers it used, and what it returned. */
  datatype Poll<T> = Poll(consumed: nat, result: Result<T>)

  function Later<T>(p: Poll<T>, n: nat): Poll<T> {
    Poll(p.consumed + n, p.result)
  }

  /** `WaitDaemon` over a sequence of answers: it returns at the first started answer; errors only make it wait. */
  function DaemonPoll(ss: seq<StatusReply>): (p: Poll<()>)
    ensures p.consumed <= |ss|
    ensures p.result.Ok? ==> p.consumed > 0 && StartedAnswer(ss[p.consumed - 1])
    ensures forall j :: 0 <= j < p.consumed && j != p.consumed - 1 ==> !StartedAnswer(ss[j])
    ensures p.result.Err? ==> p.result.error == Waiting("tailscaled") && p.consumed == |ss|
    ensures p.result.Err? ==> forall j :: 0 <= j < |ss| ==> !StartedAnswer(ss[j])
    decreases |ss|
  {
    if ss == [] then Poll(0, Err(Waiting("tailscaled")))
    else if StartedAnswer(ss[0]) then Poll(1, Ok(()))
    else Later(DaemonPoll(ss[1..]), 1)
  }

  /** The loop of `WaitIP` after the daemon has started: a status error ends it, an answer with addresses gives the first one. */
  function AddressPoll(ss: seq<StatusReply>): (p: Poll<string>)
    ensures p.consumed <= |ss|
    ensures forall j :: 0 <= j < p.consumed - 1 ==> ss[j].Status? && ss[j].ips == []
    ensures p.result.Ok? ==>
      p.consumed > 0 && ss[p.consumed - 1].Status? && ss[p.consumed - 1].ips != [] &&
      p.result.value == ss[p.consumed - 1].ips[0]
    ensures p.result.Err? && p.result.error.StatusFailed? ==>
      p.consumed > 0 && ss[p.consumed - 1] == StatusError(p.result.error.reason)
    ensures p.result.Err? && !p.result.error.StatusFailed? ==>
      p.result.error == Waiting("tailscaled") && p.consumed == |ss| && forall j :: 0 <= j < |ss| ==> ss[j].Status? && ss[j].ips == []
    decreases |ss|
  {
    if ss == [] then Poll(0, Err(Waiting("tailscaled")))
    else if ss[0].StatusError? then Poll(1, Err(StatusFailed(ss[0].reason)))
    else if ss[0].ips != [] then Poll(1, Ok(ss[0].ips[0]))
    else Later(AddressPoll(ss[1..]), 1)
  }

  /** `WaitIP`: first `WaitDaemon`, then the address loop on the answers that follow. */
  function IPPoll(ss: seq<StatusReply>): (p: Poll<string>)
    ensures p.consumed <= |ss|
  {
    var d := DaemonPoll(ss);
    if d.result.Err? then Poll(d.consumed, Err(d.result.error))
    else Later(AddressPoll(ss[d.consumed..]), d.consumed)
  }

  /**
   * A status error while waiting for the daemon is waited out; the same
   * error after it has started ends `WaitIP`. The answer that shows the
   * daemon started is used up by the first wait, and the addresses are read
   * from the answers after it.
   */
  lemma StatusErrorFatalOnlyAfterStart(state: string, ip: string, reason: string)
    requires IsStarted(state)
    ensures IPPoll([StatusError(reason), Status(state, [ip]), Status(state, [ip])]) == Poll(3, Ok(ip))
    ensures IPPoll([Status(state, [ip]), StatusError(reason), Status(state, [ip])]) == Poll(2, Err(StatusFailed(reason)))
  {
    var a := [StatusError(reason), Status(state, [ip]), Status(state, [ip])];
    assert a[1..] == [Status(state, [ip]), Status(state, [ip])];
    assert DaemonPoll(a) == Poll(2, Ok(()));
    assert a[2..] == [Status(state, [ip])];
    var b := [Status(state, [ip]), StatusError(reason), Status(state, [ip])];
    assert DaemonPoll(b) == Poll(1, Ok(()));
    assert b[1..] == [StatusError(reason), Status(state, [ip])];
  }

  /** `WaitDaemon`: ask for the status until the daemon has started. */
  method WaitDaemon(m: Machine) returns (r: Result<()>)
    modifies m
    ensures var p := DaemonPoll(old(m.statuses));
      r == p.result && m.statuses == old(m.statuses)[p.consumed..]
    ensures m.dirs == old(m.dirs) && m.files == old(m.files) && m.hostname == old(m.hostname)
    ensures m.replies == old(m.replies) && m.executed == old(m.executed)
  {
    ghost var k := 0;
    while true
      invariant 0 <= k <= |old(m.statuses)| && m.statuses == old(m.statuses)[k..]
      invariant DaemonPoll(old(m.statuses)) == Later(DaemonPoll(m.statuses), k)
      invariant m.dirs == old(m.dirs) && m.files == old(m.files) && m.hostname == old(m.hostname)
      invariant m.replies == old(m.replies) && m.executed == old(m.executed)
      decreases |m.statuses|
    {
      ghost var before := m.statuses;
      var s := m.QueryStatus();
      if s.Err? {
        return Err(s.error);
      }
      if StartedAnswer(s.value) {
        return Ok(());
      }
      assert m.statuses == before[1..];
      k := k + 1;
    }
  }

  /** `WaitIP`: wait for the daemon, then ask until the node has an address; a status error is returned. */
  method WaitIP(m: Machine) returns (r: Result<string>)
    modifies m
    ensures var p := IPPoll(old(m.statuses));
      r == p.result && m.statuses == old(m.statuses)[p.consumed..]
    ensures m.dirs == old(m.dirs) && m.files == old(m.files) && m.hostname == old(m.hostname)
    ensures m.replies == old(m.replies) && m.executed == old(m.executed)
  {
    var started := WaitDaemon(m);
    if started.Err? {
      return Err(started.error);
    }
    ghost var k := DaemonPoll(old(m.statuses)).consumed;
    ghost var rest := m.statuses;
    r := WaitAddress(m);
    assert m.statuses == rest[AddressPoll(rest).consumed..];
  }

  /** The address loop of `WaitIP`, once the daemon has started. */
  method WaitAddress(m: Machine) returns (r: Result<string>)
    modifies m
    ensures var p := AddressPoll(old(m.statuses));
      r == p.result && m.statuses == old(m.statuses)[p.consumed..]
    ensures m.dirs == old(m.dirs) && m.files == old(m.files) && m.hostname == old(m.hostname)
    ensures m.replies == old(m.replies) && m.executed == old(m.executed)
  {
    ghost var k := 0;
    while true
      invariant 0 <= k <= |old(m.statuses)| && m.statuses == old(m.statuses)[k..]
      invariant AddressPoll(old(m.statuses)) == Later(AddressPoll(m.statuses), k)
      invariant m.dirs == old(m.dirs) && m.files == old(m.files) && m.hostname == old(m.hostname)
      invariant m.replies == old(m.replies) && m.executed == old(m.executed)
      decreases |m.statuses|
    {
      ghost var before := m.statuses;
      var s := m.QueryStatus();
      if s.Err? {
        return Err(s.error);
      }
      if s.value.StatusError? {
        return Err(StatusFailed(s.value.reason));
      }
      if s.value.ips != [] {
        return Ok(s.value.ips[0]);
      }
      assert m.statuses == before[1..];
      k := k + 1;
    }
  }
}
