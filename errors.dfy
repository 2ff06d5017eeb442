/**
 * Errors and results shared by the workstation tool and the node agent.
 *
 * Go returns `error` values; here every site that creates an error has its
 * own constructor, and `fmt.Errorf("...: %w", err)` becomes `Wrapped`.
 * File-system faults are an oracle: an operation on a path fails exactly
 * when the pair (operation, path) is in the environment's fault set.
 */
module Errors {

  datatype Error =
    // *ErrNotFound of the registry (internal/client/store.go)
    | ClusterNotFound(cluster: string)
    | NodeNotFound(cluster: string, node: string)
    // os errors surfaced as they are
    | NotExist(path: string)
    | IoFailure(op: Op, path: string)
    | Undecodable(path: string)
    | NotADirectory(path: string)
    | IsADirectory(path: string)
    // workstation-side rules
    | ClusterExists(name: string)
    | SshKeyRequired
    | RandomSourceFailed
    | KeyDerivationFailed(reason: string)
    | NodeNameInUse(node: string, cluster: string)
    | FirstNodeMustBeControlPlane
    | NoControlPlaneNodes(cluster: string)
    | ImageInstallFailed(reason: string)
    // node-side rules
    | WifiNameRequired
    | TailscaleAuthKeyRequired
    | InvalidK3sRole
    | K3sTokenRequired
    | RoleNotImplemented(role: string)
    | HostnameEmpty
    | SethostnameFailed
    | ConnManUnreachable
    | ConnManUnparsable(output: string)
    | StatusFailed(reason: string)
    | CommandOutput(output: string)
    | ExecFailed(reason: string)
    | InvalidUid(user: string)
    | InvalidGid(user: string)
    | UserNotFound(user: string)
    | PasswordNotSet(user: string, output: string)
    | ServiceNotStarted(service: string, output: string)
    // context added by fmt.Errorf
    | Wrapped(context: string, cause: Error)
    // the scripted replies of the environment ran out while the program was
    // still waiting for an answer (the real program would still be blocked)
    | Waiting(what: string)
  {
    /** `errors.As(err, *ErrNotFound)` in the registry's callers. */
    predicate IsNotFound() {
      ClusterNotFound? || NodeNotFound?
    }
  }

  datatype Result<+T> = Ok(value: T) | Err(error: Error) {
    predicate IsFailure() {
      Err?
    }

    function PropagateFailure<U>(): Result<U>
      requires Err?
    {
      Err(error)
    }

    function Extract(): T
      requires Ok?
    {
      value
    }
  }

  datatype Option<+T> = None | Some(value: T)

  /** Index of the first failure in `rs`, or `|rs|` when all succeeded. */
  function FirstErr<T>(rs: seq<Result<T>>): (k: nat)
    ensures k <= |rs|
    ensures forall j :: 0 <= j < k ==> rs[j].Ok?
    ensures k < |rs| ==> rs[k].Err?
    decreases |rs|
  {
    if rs == [] || rs[0].Err? then 0 else 1 + FirstErr(rs[1..])
  }

  /**
   * The loop `for each item: v, err := f(item); if err != nil { return nil, err };
   * out = append(out, v)`: all values in order, or the first error.
   */
  function Collect<T>(rs: seq<Result<T>>): (r: Result<seq<T>>)
    ensures r.Ok? <==> FirstErr(rs) == |rs|
    ensures r.Ok? ==> |r.value| == |rs| && forall i :: 0 <= i < |rs| ==> rs[i] == Ok(r.value[i])
    ensures r.Err? ==> r.error == rs[FirstErr(rs)].error
    decreases |rs|
  {
    if rs == [] then Ok([])
    else if rs[0].Err? then Err(rs[0].error)
    else
      match Collect(rs[1..])
      case Err(e) => Err(e)
      case Ok(vs) => Ok([rs[0].value] + vs)
  }

  /** File-system operations that the environment may refuse. */
  datatype Op = Read | Write | Mkdir | ReadDir | Stat | Chmod | Chown

  /** The oracle's verdict on one operation: `Fault(op, p)` in the fault set makes `op` on `p` fail. */
  datatype Fault = Fault(op: Op, path: string)

  /** Permission bits, written in decimal (Dafny has no octal literals). */
  const Perm0600: int := 384
  const Perm0644: int := 420
  const Perm0666: int := 438
  const Perm0700: int := 448
  const Perm0755: int := 493
}
