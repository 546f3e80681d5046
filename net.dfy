/** Network value types shared by the tunnel, WireGuard and API modules:
    IP addresses, socket addresses and transport endpoints. */
module Net {

  /** An unsigned 8-bit integer (`u8`). */
  type byte = x: int | 0 <= x < 256

  /** An unsigned 16-bit integer (`u16`), used for ports and IPv6 segments. */
  type u16 = x: int | 0 <= x < 0x1_0000

  /** The eight 16-bit segments of an IPv6 address. */
  type Segments = s: seq<u16> | |s| == 8 witness [0, 0, 0, 0, 0, 0, 0, 0]

  datatype IpAddr =
    | V4(a: byte, b: byte, c: byte, d: byte)
    | V6(segments: Segments)

  /** An IPv4 socket address (`SocketAddrV4`). */
  datatype SocketAddrV4 = SocketAddrV4(ip: (byte, byte, byte, byte), port: u16)

  datatype SocketAddr = SocketAddr(ip: IpAddr, port: u16)

  datatype TransportProtocol = Udp | Tcp

  /** A socket address together with the transport protocol used to reach it. */
  datatype Endpoint = Endpoint(address: SocketAddr, protocol: TransportProtocol)

  const Localhost: IpAddr := V4(127, 0, 0, 1)

  /** `SocketAddr::V4(addr)`: widens an IPv4 socket address. */
  function FromV4(addr: SocketAddrV4): SocketAddr
  {
    SocketAddr(V4(addr.ip.0, addr.ip.1, addr.ip.2, addr.ip.3), addr.port)
  }

  /** `Endpoint::from_socket_address`. */
  function FromSocketAddress(address: SocketAddr, protocol: TransportProtocol): Endpoint
  {
    Endpoint(address, protocol)
  }
}
