/**
 * The declarative node configuration document (the `hcos.yaml` written to a
 * node's boot media and read back by the agent), as pkg/os/config and
 * pkg/config declare it. The role is a plain string, as in the source: the
 * agent must be able to meet a document whose role is none of the three.
 */
module OsConfig {

  const ClusterInitRole: string := "cluster-init"
  const ControlPlaneRole: string := "control-plane"
  const WorkerRole: string := "worker"

  /** Where the agent reads its configuration by default. */
  const DefaultConfigPath: string := "/usr/local/cloud-config/config.yaml"

  predicate IsKnownRole(role: string) {
    role == ClusterInitRole || role == ControlPlaneRole || role == WorkerRole
  }

  /** Go's zero value `Wifi("", "")` stands for "no Wi-Fi section". */
  datatype Wifi = Wifi(name: string, password: string)

  datatype Tailscale = Tailscale(authKey: string)

  datatype Network = Network(wifi: Wifi, tailscale: Tailscale)

  /** `server` is empty for the `cluster-init` node, which becomes the endpoint. */
  datatype K3s = K3s(role: string, server: string, token: string)

  datatype Config = Config(
    hostname: string,
    password: string,
    sshAuthorizedKeys: seq<string>,
    network: Network,
    k3s: K3s)
}
