/** How the API client reaches the Mullvad API (mullvad-api `proxy`):
    directly or through a proxy, the endpoint each proxy is reached at, and
    the decision that turns the cached connection-mode file into a mode. */
module ApiProxy {
  import opened Net
  import opened Wrappers

  /** The kinds of I/O error the modelled code tells apart. */
  datatype IoErrorKind = NotFound | InvalidInput | PermissionDenied | Other

  datatype IoError = IoError(kind: IoErrorKind, message: string)

  datatype SocksAuth = SocksAuth(username: string, password: string)

  /** The user-configured proxies (talpid-types `net::proxy`). */
  datatype Shadowsocks = Shadowsocks(endpoint: SocketAddr, password: string, cipher: string)
  datatype Socks5Local = Socks5Local(remoteEndpoint: Endpoint, localPort: u16)
  datatype Socks5Remote = Socks5Remote(endpoint: SocketAddr, auth: Option<SocksAuth>)

  datatype CustomProxy =
    | CustomShadowsocks(shadowsocks: Shadowsocks)
    | CustomSocks5Local(local: Socks5Local)
    | CustomSocks5Remote(remote: Socks5Remote)

  /** An encrypted-DNS proxy: the IPv4 address of the relay and, when the
      relay obfuscates, its key. */
  datatype EncryptedDnsProxyConfig = EncryptedDnsProxyConfig(addr: SocketAddrV4, obfuscation: Option<seq<byte>>)

  datatype ProxyConfig =
    | ShadowsocksProxy(shadowsocks: Shadowsocks)
    | Socks5LocalProxy(local: Socks5Local)
    | Socks5RemoteProxy(remote: Socks5Remote)
    | EncryptedDnsProxy(encryptedDns: EncryptedDnsProxyConfig)

  datatype ApiConnectionMode = Direct | Proxied(proxy: ProxyConfig)

  /** `ProxyConfig::get_endpoint`: where the proxy is reached. Proxies the
      client dials itself are reached over TCP at their address; a local
      SOCKS5 proxy reports the remote endpoint it forwards to. */
  function ProxyEndpoint(p: ProxyConfig): (e: Endpoint)
    ensures !p.Socks5LocalProxy? ==> e.protocol == Tcp
    ensures p.ShadowsocksProxy? ==> e.address == p.shadowsocks.endpoint
    ensures p.Socks5RemoteProxy? ==> e.address == p.remote.endpoint
    ensures p.EncryptedDnsProxy? ==> e.address == FromV4(p.encryptedDns.addr)
    ensures p.Socks5LocalProxy? ==> e == p.local.remoteEndpoint
  {
    match p
    case ShadowsocksProxy(shadowsocks) => FromSocketAddress(shadowsocks.endpoint, Tcp)
    case Socks5LocalProxy(local) => local.remoteEndpoint
    case Socks5RemoteProxy(remote) => FromSocketAddress(remote.endpoint, Tcp)
    case EncryptedDnsProxy(proxy) => FromSocketAddress(FromV4(proxy.addr), Tcp)
  }

  /** `From<CustomProxy> for ProxyConfig`. */
  function FromCustomProxy(c: CustomProxy): (p: ProxyConfig)
    ensures ToCustomProxy(p) == Some(c)
    ensures !p.EncryptedDnsProxy?
  {
    match c
    case CustomShadowsocks(shadowsocks) => ShadowsocksProxy(shadowsocks)
    case CustomSocks5Local(local) => Socks5LocalProxy(local)
    case CustomSocks5Remote(remote) => Socks5RemoteProxy(remote)
  }

  /** `From<mullvad_encrypted_dns_proxy::config::ProxyConfig> for ProxyConfig`. */
  function FromEncryptedDnsConfig(c: EncryptedDnsProxyConfig): (p: ProxyConfig)
    ensures p.EncryptedDnsProxy? && p.encryptedDns == c
    ensures ToCustomProxy(p).None?
  {
    EncryptedDnsProxy(c)
  }

  /** The inverse of `FromCustomProxy` on the proxies a user can configure. */
  function ToCustomProxy(p: ProxyConfig): (c: Option<CustomProxy>)
    ensures c.None? <==> p.EncryptedDnsProxy?
  {
    match p
    case ShadowsocksProxy(shadowsocks) => Some(CustomShadowsocks(shadowsocks))
    case Socks5LocalProxy(local) => Some(CustomSocks5Local(local))
    case Socks5RemoteProxy(remote) => Some(CustomSocks5Remote(remote))
    case EncryptedDnsProxy(_) => None
  }

  /** The other direction of the inverse: every proxy config that is not
      an encrypted-DNS one comes from the custom proxy it converts to. */
  lemma ConversionsPreservePayload(p: ProxyConfig)
    ensures ToCustomProxy(p).Some? ==> FromCustomProxy(ToCustomProxy(p).value) == p
  {
  }

  /** `ApiConnectionMode::get_endpoint`: `None` exactly for Direct. */
  function GetEndpoint(m: ApiConnectionMode): (r: Option<Endpoint>)
    ensures r.None? <==> m.Direct?
    ensures r.Some? ==> r.value == ProxyEndpoint(m.proxy)
  {
    match m
    case Direct => None
    case Proxied(proxy) => Some(ProxyEndpoint(proxy))
  }

  /** `ApiConnectionMode::is_proxy`. */
  function IsProxy(m: ApiConnectionMode): bool
  {
    m != Direct
  }

  /** A mode is a proxy exactly when it has an endpoint to reach. */
  lemma IsProxyIffEndpoint(m: ApiConnectionMode)
    ensures IsProxy(m) <==> GetEndpoint(m).Some?
    ensures IsProxy(m) <==> m.Proxied?
  {
  }

  /** The error `from_cache` returns for a cache file that does not parse. */
  const DeserializationFailed: IoError := IoError(Other, "deserialization failed")

  /** `ApiConnectionMode::from_cache`, given the outcome of reading the
      cache file and the JSON parser. A missing file means Direct; any
      other read error, and text that does not parse, is an error. */
  function FromCache(read: Result<string, IoError>, parse: string -> Option<ApiConnectionMode>)
    : (r: Result<ApiConnectionMode, IoError>)
    ensures read.Err? && read.error.kind == NotFound ==> r == Ok(Direct)
    ensures read.Err? && read.error.kind != NotFound ==> r == Err(read.error)
    ensures read.Ok? ==> (r.Ok? <==> parse(read.value).Some?)
    ensures read.Ok? && r.Ok? ==> r.value == parse(read.value).value
    ensures read.Ok? && parse(read.value).None? ==> r == Err(DeserializationFailed)
  {
    match read
    case Ok(text) =>
      (match parse(text)
       case Some(mode) => Ok(mode)
       case None => Err(DeserializationFailed))
    case Err(error) =>
      if error.kind == NotFound then Ok(Direct) else Err(error)
  }

  /** `ApiConnectionMode::try_from_cache`: never fails, and falls back to
      Direct whenever `from_cache` does. */
  function TryFromCache(read: Result<string, IoError>, parse: string -> Option<ApiConnectionMode>)
    : (m: ApiConnectionMode)
    ensures FromCache(read, parse).Ok? ==> m == FromCache(read, parse).value
    ensures FromCache(read, parse).Err? ==> m == Direct
  {
    match FromCache(read, parse)
    case Ok(mode) => mode
    case Err(_) => Direct
  }

  /** The cache yields a proxy only when the file was read and parsed to
      that proxy. */
  lemma CachedProxyWasParsed(read: Result<string, IoError>, parse: string -> Option<ApiConnectionMode>)
    requires IsProxy(TryFromCache(read, parse))
    ensures read.Ok? && parse(read.value) == Some(TryFromCache(read, parse))
  {
  }

  /** A provider that always offers the mode it was built with. */
  datatype StaticConnectionModeProvider = StaticConnectionModeProvider(mode: ApiConnectionMode)
  {
    /** `ConnectionModeProvider::initial`. */
    function Initial(): ApiConnectionMode { mode }
  }

  /** `ApiConnectionMode::into_provider`. */
  function IntoProvider(m: ApiConnectionMode): (provider: StaticConnectionModeProvider)
    ensures provider.Initial() == m
  {
    StaticConnectionModeProvider(m)
  }
}
