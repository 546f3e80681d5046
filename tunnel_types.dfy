/** The tunnel-level value types the Connected state works with
    (talpid-types `net` and `tunnel`, talpid-core `dns` and `tunnel`). Their
    definitions live outside the Connected state's file; only the parts the
    state machine reads are modelled. */
module TunnelTypes {
  import opened Net
  import opened Wrappers
  import WireGuard

  /** Which processes the firewall lets reach the relay. */
  datatype AllowedClients = Root | All

  datatype AllowedEndpoint = AllowedEndpoint(endpoint: Endpoint, clients: AllowedClients)

  /** The proxy an OpenVPN tunnel runs through: a local proxy process
      (`LocalProxySettings`) or a remote one. Either way the tunnel's
      traffic first reaches `remoteEndpoint`. */
  datatype OpenVpnProxy =
    | LocalProxy(localPort: u16, remoteEndpoint: Endpoint)
    | RemoteProxy(remoteEndpoint: Endpoint)

  datatype TunnelType = OpenVpnTunnel | WireguardTunnel

  datatype TunnelParameters =
    | OpenVpn(endpoint: Endpoint, proxy: Option<OpenVpnProxy>)
    | Wireguard(wireguard: WireGuard.TunnelParameters)

  /** The endpoint the tunnel's packets are sent to first. */
  function GetNextHopEndpoint(p: TunnelParameters): (e: Endpoint)
    ensures p.OpenVpn? && p.proxy.None? ==> e == p.endpoint
    ensures p.OpenVpn? && p.proxy.Some? ==> e == p.proxy.value.remoteEndpoint
    ensures p.Wireguard? ==> e == WireGuard.GetNextHopEndpoint(p.wireguard)
  {
    match p
    case OpenVpn(endpoint, proxy) =>
      if proxy.Some? then proxy.value.remoteEndpoint else endpoint
    case Wireguard(w) => WireGuard.GetNextHopEndpoint(w)
  }

  /** The settings of a local OpenVPN proxy, when the tunnel uses one. */
  function GetOpenVpnLocalProxySettings(p: TunnelParameters): (r: Option<OpenVpnProxy>)
    ensures r.Some? <==> p.OpenVpn? && p.proxy.Some? && p.proxy.value.LocalProxy?
    ensures r.Some? ==> r == p.proxy
  {
    match p
    case OpenVpn(_, Some(LocalProxy(port, remote))) => Some(LocalProxy(port, remote))
    case _ => None
  }

  /** What a tunnel-state transition reports about the tunnel. */
  datatype TunnelEndpoint = TunnelEndpoint(
    endpoint: Endpoint,
    tunnelType: TunnelType,
    entryEndpoint: Option<Endpoint>,
    tunnelInterface: Option<string>)

  /** The reported endpoint: the exit relay of a multihop WireGuard
      tunnel, with the entry relay beside it, and no interface yet. */
  function GetTunnelEndpoint(p: TunnelParameters): (e: TunnelEndpoint)
    ensures e.tunnelInterface.None?
    ensures e.tunnelType == WireguardTunnel <==> p.Wireguard?
    ensures p.Wireguard? ==>
      (e.entryEndpoint.Some? <==> p.wireguard.connection.exitPeer.Some?)
  {
    match p
    case OpenVpn(endpoint, _) => TunnelEndpoint(endpoint, OpenVpnTunnel, None, None)
    case Wireguard(w) =>
      match WireGuard.GetExitEndpoint(w.connection)
      case Some(exit) =>
        TunnelEndpoint(exit, WireguardTunnel, Some(WireGuard.GetEndpoint(w.connection)), None)
      case None =>
        TunnelEndpoint(WireGuard.GetEndpoint(w.connection), WireguardTunnel, None, None)
  }

  /** What is known about a tunnel once it is up. */
  datatype TunnelMetadata = TunnelMetadata(
    interface: string,
    ips: seq<IpAddr>,
    ipv4Gateway: IpAddr,
    ipv6Gateway: Option<IpAddr>)
  {
    /** The gateways of the tunnel: IPv4 first, then IPv6 if there is one. */
    function Gateways(): (g: seq<IpAddr>)
      ensures |g| >= 1 && g[0] == ipv4Gateway
      ensures |g| == 2 <==> ipv6Gateway.Some?
      ensures |g| == 2 ==> g[1] == ipv6Gateway.value
      ensures |g| <= 2
    {
      if ipv6Gateway.Some? then [ipv4Gateway, ipv6Gateway.value] else [ipv4Gateway]
    }
  }

  /** The DNS servers the tunnel should use after resolution. */
  datatype ResolvedDnsConfig = ResolvedDnsConfig(servers: seq<IpAddr>)

  /** The user's DNS setting: the tunnel's gateways, or custom servers. */
  datatype DnsConfig =
    | DefaultDns
    | CustomDns(addresses: seq<IpAddr>)
  {
    function Resolve(gateways: seq<IpAddr>): (r: ResolvedDnsConfig)
      ensures DefaultDns? ==> r.servers == gateways
      ensures CustomDns? ==> r.servers == addresses
    {
      match this
      case DefaultDns => ResolvedDnsConfig(gateways)
      case CustomDns(addresses) => ResolvedDnsConfig(addresses)
    }
  }

  /** What the offline monitor knows about the host's connectivity. */
  datatype Connectivity =
    | Status(ipv4: bool, ipv6: bool)
    | PresumeOnline
  {
    /** Offline means that neither IPv4 nor IPv6 is available. */
    predicate IsOffline() {
      Status? && !ipv4 && !ipv6
    }
  }

  /** Why the firewall policy could not be applied. Off Windows the cause is
      never more specific than `Generic`. */
  datatype FirewallPolicyError = Generic

  /** Why the tunnel state machine entered the error state. Only the
      causes the Connected state produces are distinguished; `OtherCause`
      stands for the rest. */
  datatype ErrorStateCause =
    | SetFirewallPolicyError(error: FirewallPolicyError)
    | SetDnsError
    | IsOffline
    | StartTunnelError
    | AuthFailed(reason: Option<string>)
    | OtherCause(name: string)

  /** An event reported by the running tunnel. */
  datatype TunnelEvent =
    | AuthFailedEvent(reason: Option<string>)
    | InterfaceUp
    | Up(metadata: TunnelMetadata)
    | Down
}
