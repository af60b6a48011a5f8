/**
 * The network topology as the provisioning code sees it: the network options and the
 * first (and only operated) organization with its peers, orderers and certificate authority.
 */
module Topology {
  import opened Text

  /** The `options` bag of a peer or orderer: its port list and the engine it runs on. */
  datatype NodeOptions = NodeOptions(ports: seq<nat>, engineName: string)

  datatype Peer = Peer(name: string, options: NodeOptions)

  datatype Orderer = Orderer(name: string, options: NodeOptions)

  /** Connection and bootstrap parameters of the organization's certificate authority. */
  datatype CaOptions = CaOptions(port: nat, user: string, password: string, engineName: string)

  datatype CertificateAuthority = CertificateAuthority(name: string, options: CaOptions)

  /**
   * An organization. The derived names (`fullName`, `caName`, `caCn`, `adminUserFull`) and
   * the extra-host lists (`getPeerExtraHost()`, `getOrdererExtraHost()`) are computed by the
   * organization model, whose code is not part of this model: they are carried as data.
   */
  datatype Org = Org(
    name: string,
    domainName: string,
    fullName: string,
    mspName: string,
    caName: string,
    caCn: string,
    isSecure: bool,
    adminUser: string,
    adminUserPass: string,
    adminUserFull: string,
    peers: seq<Peer>,
    orderers: seq<Orderer>,
    ca: CertificateAuthority,
    peerExtraHosts: seq<Peer>,
    ordererExtraHosts: seq<Orderer>)

  datatype NetworkOptions = NetworkOptions(
    networkConfigPath: string,
    composeNetwork: string,
    hyperledgerCAVersion: string)

  /** A network; every operation addresses `organizations[0]` only, held here as `org`. */
  datatype Network = Network(options: NetworkOptions, org: Org)

  /**
   * Organization helpers whose definitions are not part of this model:
   * `ordererName(orderer)` and `engineHost(engineName)`.
   */
  datatype Resolver = Resolver(ordererName: Orderer -> string, engineHost: string -> string)

  /** `<peer.name>.<fullName>`: a peer's enrollment ID, host name and directory name. */
  function PeerFullName(org: Org, peer: Peer): string {
    peer.name + "." + org.fullName
  }

  /** `<orderer.name>.<fullName>`: an orderer's name in the connection profile. */
  function OrdererFullName(org: Org, orderer: Orderer): string {
    orderer.name + "." + org.fullName
  }

  /** `options.ports[0]`, which interpolates as `undefined` when the list is empty. */
  datatype PortValue = Port(n: nat) | Undefined {
    function Render(): string {
      match this
      case Port(n) => NatToString(n)
      case Undefined => "undefined"
    }
  }

  function FirstPort(options: NodeOptions): (p: PortValue)
    ensures p.Port? <==> |options.ports| > 0
    ensures p.Port? ==> p.n == options.ports[0]
  {
    if |options.ports| > 0 then Port(options.ports[0]) else Undefined
  }
}
