/**
 * Network readiness on the node (internal/system/network.go): the state
 * ConnMan reports through `connmanctl state`, and the wait until it is
 * `ready` or `online`. The wait polls without bound in the source; here it
 * runs the command once per scripted reply.
 */
module Network {
  import opened Errors
  import opened Text
  import opened Host
  import opened Tailscale

  const StateArgs: seq<string> := ["connmanctl", "state"]
  /** Printed when D-Bus or the ConnMan daemon does not answer yet. */
  const UnreachableMarker: string := "name net.connman"
  const StatePrefix: string := "State = "

  /** The text of `s` up to its first line break. */
  function FirstLine(s: string): (r: string)
    ensures r <= s && '\n' !in r
    ensures |r| < |s| ==> s[|r|] == '\n'
  {
    s[..FindChar(s, '\n')]
  }

  /**
   * `connManState`: an unreachable daemon is one error, output without a
   * state line is another; otherwise the state is what follows the first
   * `State = ` up to the end of its line.
   */
  function ConnManState(reply: CmdReply): (r: Result<string>)
    ensures !Succeeded(reply) || Contains(OutputOf(reply), UnreachableMarker) ==> r == Err(ConnManUnreachable)
    ensures Succeeded(reply) && !Contains(reply.output, UnreachableMarker) && FindSub(reply.output, StatePrefix).None? ==>
      r == Err(ConnManUnparsable(reply.output))
    ensures r.Ok? ==>
      && Succeeded(reply) && !Contains(reply.output, UnreachableMarker)
      && FindSub(reply.output, StatePrefix).Some?
      && var i := FindSub(reply.output, StatePrefix).value;
         r.value == FirstLine(reply.output[i + |StatePrefix|..])
  {
    if !Succeeded(reply) || Contains(OutputOf(reply), UnreachableMarker) then Err(ConnManUnreachable)
    else
      match FindSub(reply.output, StatePrefix)
      case None => Err(ConnManUnparsable(reply.output))
      case Some(i) => Ok(FirstLine(reply.output[i + |StatePrefix|..]))
  }

  /** The output `connmanctl state` prints: an indented `State = ` line first, then any other lines. */
  lemma ParseStateLine(indent: string, state: string, rest: string)
    requires forall i :: 0 <= i < |indent| ==> indent[i] == ' '
    requires '\n' !in state
    requires !Contains(indent + (StatePrefix + (state + "\n" + rest)), UnreachableMarker)
    ensures ConnManState(Exited(0, indent + (StatePrefix + (state + "\n" + rest)))) == Ok(state)
  {
    var line := state + "\n" + rest;
    var out := indent + (StatePrefix + line);
    PrefixAfterIndent(indent, StatePrefix + line);
    assert out[|indent| + |StatePrefix|..] == line;
    LineUpToBreak(state, rest);
  }

  lemma PrefixAfterIndent(indent: string, s: string)
    requires forall i :: 0 <= i < |indent| ==> indent[i] == ' '
    requires |s| >= |StatePrefix| && s[..|StatePrefix|] == StatePrefix
    ensures FindSub(indent + s, StatePrefix) == Some(|indent|)
  {
    var out := indent + s;
    assert OccursAt(out, StatePrefix, |indent|) by {
      assert out[|indent|..|indent| + |StatePrefix|] == s[..|StatePrefix|];
    }
    NoPrefixInIndent(indent, s);
    var r := FindSub(out, StatePrefix);
    if r.None? || r.value > |indent| {
      assert false;
    }
  }

  /** No state line starts among the blanks of the indentation. */
  lemma NoPrefixInIndent(indent: string, s: string)
    requires forall i :: 0 <= i < |indent| ==> indent[i] == ' '
    ensures forall j: nat :: j < |indent| ==> !OccursAt(indent + s, StatePrefix, j)
  {
    forall j: nat | j < |indent| ensures !OccursAt(indent + s, StatePrefix, j) {
      assert (indent + s)[j] == ' ';
    }
  }

  lemma LineUpToBreak(state: string, rest: string)
    requires '\n' !in state
    ensures FirstLine(state + "\n" + rest) == state
  {
    var s := state + "\n" + rest;
    assert FindChar(s, '\n') == |state| by {
      assert forall j :: 0 <= j < |state| ==> s[j] == state[j];
      assert s[|state|] == '\n';
    }
    assert s[..|state|] == state;
  }

  function Repeated<T>(x: T, n: nat): (r: seq<T>)
    ensures |r| == n
  {
    if n == 0 then [] else Repeated(x, n - 1) + [x]
  }

  /** The daemon is up and reports a connected state. */
  predicate IsReady(reply: CmdReply) {
    ConnManState(reply) == Ok("ready") || ConnManState(reply) == Ok("online")
  }

  /** `WaitNetwork` over a sequence of replies: it returns at the first ready reply; errors and other states only make it wait. */
  function NetworkPoll(rs: seq<CmdReply>): (p: Poll<()>)
    ensures p.consumed <= |rs|
    ensures p.result.Ok? ==> p.consumed > 0 && IsReady(rs[p.consumed - 1])
    ensures forall j :: 0 <= j < p.consumed && j != p.consumed - 1 ==> !IsReady(rs[j])
    ensures p.result.Err? ==> p.result.error == Waiting("command") && p.consumed == |rs|
    ensures p.result.Err? ==> forall j :: 0 <= j < |rs| ==> !IsReady(rs[j])
    decreases |rs|
  {
    if rs == [] then Poll(0, Err(Waiting("command")))
    else if IsReady(rs[0]) then Poll(1, Ok(()))
    else Later(NetworkPoll(rs[1..]), 1)
  }

  /** `WaitNetwork`: ask ConnMan for its state until it is ready or online. */
  method WaitNetwork(m: Machine) returns (r: Result<()>)
    modifies m
    ensures var p := NetworkPoll(old(m.replies));
      && r == p.result
      && m.replies == old(m.replies)[p.consumed..]
      && m.executed == old(m.executed) + Repeated(Command(StateArgs, ""), p.consumed)
    ensures m.dirs == old(m.dirs) && m.files == old(m.files) && m.hostname == old(m.hostname)
    ensures m.statuses == old(m.statuses)
  {
    ghost var k := 0;
    while true
      invariant 0 <= k <= |old(m.replies)| && m.replies == old(m.replies)[k..]
      invariant NetworkPoll(old(m.replies)) == Later(NetworkPoll(m.replies), k)
      invariant m.executed == old(m.executed) + Repeated(Command(StateArgs, ""), k)
      invariant m.dirs == old(m.dirs) && m.files == old(m.files) && m.hostname == old(m.hostname)
      invariant m.statuses == old(m.statuses)
      decreases |m.replies|
    {
      ghost var before, logged := m.replies, m.executed;
      var reply := m.Exec(StateArgs, "");
      if reply.Err? {
        return Err(reply.error);
      }
      assert m.executed == logged + [Command(StateArgs, "")];
      assert Repeated(Command(StateArgs, ""), k + 1) == Repeated(Command(StateArgs, ""), k) + [Command(StateArgs, "")];
      assert m.executed == old(m.executed) + Repeated(Command(StateArgs, ""), k + 1);
      if IsReady(reply.value) {
        return Ok(());
      }
      assert m.replies == before[1..];
      k := k + 1;
    }
  }
}
