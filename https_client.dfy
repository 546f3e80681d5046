/** The HTTPS connector of the API client (mullvad-api
    `https_client_with_sni`): how a connection mode becomes the connector's
    inner mode, which address is dialled first, how a URI is resolved to a
    socket address, and the list of stream handles the connector keeps so
    that it can close every open stream when its configuration changes. */
module HttpsClient {
  import opened Net
  import opened Wrappers
  import opened ApiProxy
  import Text

  /** A Shadowsocks cipher recognised by the Shadowsocks library. */
  datatype CipherKind = CipherKind(name: string)

  datatype ParsedShadowsocksConfig = ParsedShadowsocksConfig(peer: SocketAddr, password: string, cipher: CipherKind)

  datatype SocksConfig = SocksConfig(peer: SocketAddr, authentication: Option<SocksAuth>)

  datatype InnerConnectionMode =
    | InnerDirect
    | InnerShadowsocks(shadowsocks: ParsedShadowsocksConfig)
    | InnerSocks5(socks: SocksConfig)
    | InnerEncryptedDnsProxy(encryptedDns: EncryptedDnsProxyConfig)

  datatype ProxyConfigError = InvalidCipher(cipher: string)

  /** The port used when neither the URI nor the resolver gives one. */
  const DefaultPort: u16 := 443

  /** `TryFrom<ApiConnectionMode> for InnerConnectionMode`, with
      `CipherKind::from_str` as `cipherOf`. A local SOCKS5 proxy is dialled
      on the loopback address without authentication. */
  function TryFromMode(mode: ApiConnectionMode, cipherOf: string -> Option<CipherKind>)
    : (r: Result<InnerConnectionMode, ProxyConfigError>)
    ensures mode.Direct? ==> r == Ok(InnerDirect)
    ensures r.Err? <==> mode.Proxied? && mode.proxy.ShadowsocksProxy? && cipherOf(mode.proxy.shadowsocks.cipher).None?
    ensures r.Err? ==> r.error == InvalidCipher(mode.proxy.shadowsocks.cipher)
    ensures mode.Proxied? && mode.proxy.ShadowsocksProxy? && r.Ok? ==>
      r.value.InnerShadowsocks?
      && r.value.shadowsocks.peer == mode.proxy.shadowsocks.endpoint
      && r.value.shadowsocks.password == mode.proxy.shadowsocks.password
      && Some(r.value.shadowsocks.cipher) == cipherOf(mode.proxy.shadowsocks.cipher)
    ensures mode.Proxied? && mode.proxy.Socks5LocalProxy? ==>
      r == Ok(InnerSocks5(SocksConfig(SocketAddr(Localhost, mode.proxy.local.localPort), None)))
    ensures mode.Proxied? && mode.proxy.Socks5RemoteProxy? ==>
      r == Ok(InnerSocks5(SocksConfig(mode.proxy.remote.endpoint, mode.proxy.remote.auth)))
    ensures mode.Proxied? && mode.proxy.EncryptedDnsProxy? ==>
      r == Ok(InnerEncryptedDnsProxy(mode.proxy.encryptedDns))
  {
    match mode
    case Direct => Ok(InnerDirect)
    case Proxied(proxy) =>
      match proxy
      case ShadowsocksProxy(config) =>
        (match cipherOf(config.cipher)
         case None => Err(InvalidCipher(config.cipher))
         case Some(cipher) => Ok(InnerShadowsocks(ParsedShadowsocksConfig(config.endpoint, config.password, cipher))))
      case Socks5LocalProxy(config) =>
        Ok(InnerSocks5(SocksConfig(SocketAddr(Localhost, config.localPort), None)))
      case Socks5RemoteProxy(config) =>
        Ok(InnerSocks5(SocksConfig(config.endpoint, config.auth)))
      case EncryptedDnsProxy(config) =>
        Ok(InnerEncryptedDnsProxy(config))
  }

  /** The address `InnerConnectionMode::connect` opens its TCP socket to:
      the target itself when direct, otherwise the proxy. */
  function FirstHop(mode: InnerConnectionMode, target: SocketAddr): (hop: SocketAddr)
    ensures mode.InnerDirect? ==> hop == target
    ensures mode.InnerShadowsocks? ==> hop == mode.shadowsocks.peer
    ensures mode.InnerSocks5? ==> hop == mode.socks.peer
    ensures mode.InnerEncryptedDnsProxy? ==> hop == FromV4(mode.encryptedDns.addr) && hop.ip.V4?
  {
    match mode
    case InnerDirect => target
    case InnerShadowsocks(shadowsocks) => shadowsocks.peer
    case InnerSocks5(socks) => socks.peer
    case InnerEncryptedDnsProxy(proxy) => FromV4(proxy.addr)
  }

  /** The first hop is the target exactly for a direct mode; for a proxy
      the client dials itself it is the address the proxy's endpoint
      reports, and a local SOCKS5 proxy is dialled on the loopback address
      at its local port. */
  lemma FirstHopIsProxyAddress(mode: ApiConnectionMode, cipherOf: string -> Option<CipherKind>, target: SocketAddr)
    requires TryFromMode(mode, cipherOf).Ok?
    ensures var hop := FirstHop(TryFromMode(mode, cipherOf).value, target);
      && (mode.Direct? ==> hop == target)
      && (mode.Proxied? && !mode.proxy.Socks5LocalProxy? ==> hop == GetEndpoint(mode).value.address)
      && (mode.Proxied? && mode.proxy.Socks5LocalProxy? ==> hop == SocketAddr(Localhost, mode.proxy.local.localPort))
  {
  }

  /** The parts of a URI the connector looks at. */
  datatype Uri = Uri(scheme: Option<string>, host: Option<string>, port: Option<u16>)

  /** The port of a resolved hostname: the URI's, else the resolver's,
      unless that is 0. */
  function ChoosePort(uriPort: Option<u16>, resolvedPort: u16): (p: u16)
    ensures uriPort.Some? ==> p == uriPort.value
    ensures uriPort.None? && resolvedPort == 0 ==> p == DefaultPort
    ensures uriPort.None? && resolvedPort != 0 ==> p == resolvedPort
  {
    match uriPort
    case Some(port) => port
    case None => if resolvedPort == 0 then DefaultPort else resolvedPort
  }

  const MissingHost: IoError := IoError(InvalidInput, "invalid url, missing host")
  const NotHttps: IoError := IoError(InvalidInput, "invalid url, not https")
  const EmptyDnsResponse: IoError := IoError(Other, "Empty DNS response")

  /** `resolve_address`, with `IpAddr::from_str` as `parseIp` and the
      connector's DNS resolver as `resolve`. */
  function ResolveAddress(uri: Uri, parseIp: string -> Option<IpAddr>,
                          resolve: string -> Result<seq<SocketAddr>, IoError>)
    : (r: Result<SocketAddr, IoError>)
    ensures uri.host.None? ==> r == Err(MissingHost)
    ensures uri.host.Some? && parseIp(uri.host.value).Some? ==>
      r == Ok(SocketAddr(parseIp(uri.host.value).value, if uri.port.Some? then uri.port.value else DefaultPort))
    ensures uri.host.Some? && parseIp(uri.host.value).None? ==>
      match resolve(uri.host.value)
      case Err(e) => r == Err(e)
      case Ok(addrs) =>
        && (addrs == [] ==> r == Err(EmptyDnsResponse))
        && (addrs != [] ==> r == Ok(SocketAddr(addrs[0].ip, ChoosePort(uri.port, addrs[0].port))))
  {
    match uri.host
    case None => Err(MissingHost)
    case Some(hostname) =>
      match parseIp(hostname)
      case Some(addr) => Ok(SocketAddr(addr, if uri.port.Some? then uri.port.value else DefaultPort))
      case None =>
        match resolve(hostname)
        case Err(e) => Err(e)
        case Ok(addrs) =>
          if addrs == [] then Err(EmptyDnsResponse)
          else Ok(SocketAddr(addrs[0].ip, ChoosePort(uri.port, addrs[0].port)))
  }

  /** An IP-literal host is never looked up: any two resolvers give the
      same address, which keeps the literal and the URI's port or 443. */
  lemma IpLiteralNeedsNoLookup(uri: Uri, parseIp: string -> Option<IpAddr>,
                               resolve1: string -> Result<seq<SocketAddr>, IoError>,
                               resolve2: string -> Result<seq<SocketAddr>, IoError>)
    requires uri.host.Some? && parseIp(uri.host.value).Some?
    ensures ResolveAddress(uri, parseIp, resolve1) == ResolveAddress(uri, parseIp, resolve2)
    ensures ResolveAddress(uri, parseIp, resolve1).Ok?
    ensures ResolveAddress(uri, parseIp, resolve1).value.ip == parseIp(uri.host.value).value
  {
  }

  /** The scheme check of `call`. The `http` crate parses the scheme
      ignoring ASCII case, so equality with `https` does too. */
  predicate IsHttps(scheme: Option<string>)
  {
    scheme.Some? && Text.EqIgnoreAsciiCase(scheme.value, "https")
  }

  /** The checks `call` makes before any connection work, and the host it
      then connects with. */
  function CheckUri(uri: Uri): (r: Result<string, IoError>)
    ensures !IsHttps(uri.scheme) ==> r == Err(NotHttps)
    ensures IsHttps(uri.scheme) && uri.host.None? ==> r == Err(MissingHost)
    ensures r.Ok? <==> IsHttps(uri.scheme) && uri.host.Some?
    ensures r.Ok? ==> r.value == uri.host.value
  {
    if !IsHttps(uri.scheme) then Err(NotHttps)
    else if uri.host.None? then Err(MissingHost)
    else Ok(uri.host.value)
  }

  /** What `call` does up to dialling: the address to reach and the first
      hop for the current mode, or the error that stops it. */
  function CallTarget(uri: Uri, mode: InnerConnectionMode, parseIp: string -> Option<IpAddr>,
                      resolve: string -> Result<seq<SocketAddr>, IoError>)
    : (r: Result<SocketAddr, IoError>)
    ensures CheckUri(uri).Err? ==> r == Err(CheckUri(uri).error)
    ensures CheckUri(uri).Ok? && ResolveAddress(uri, parseIp, resolve).Err? ==>
      r == Err(ResolveAddress(uri, parseIp, resolve).error)
    ensures r.Ok? <==> CheckUri(uri).Ok? && ResolveAddress(uri, parseIp, resolve).Ok?
    ensures r.Ok? ==> r.value == FirstHop(mode, ResolveAddress(uri, parseIp, resolve).value)
  {
    match CheckUri(uri)
    case Err(e) => Err(e)
    case Ok(_) =>
      match ResolveAddress(uri, parseIp, resolve)
      case Err(e) => Err(e)
      case Ok(addr) => Ok(FirstHop(mode, addr))
  }

  /** Invalid input is refused before the resolver is consulted: with a
      wrong scheme or no host, every resolver gives the same error. */
  lemma CallRejectsBeforeResolving(uri: Uri, mode: InnerConnectionMode, parseIp: string -> Option<IpAddr>,
                                   resolve1: string -> Result<seq<SocketAddr>, IoError>,
                                   resolve2: string -> Result<seq<SocketAddr>, IoError>)
    requires !IsHttps(uri.scheme) || uri.host.None?
    ensures CallTarget(uri, mode, parseIp, resolve1) == CallTarget(uri, mode, parseIp, resolve2)
    ensures CallTarget(uri, mode, parseIp, resolve1).Err?
    ensures CallTarget(uri, mode, parseIp, resolve1).error.kind == InvalidInput
  {
  }

  /** Lets the connector close a stream it produced. */
  class StreamHandle {
    var closed: bool

    constructor ()
      ensures !closed
    {
      closed := false;
    }

    method Close()
      modifies this
      ensures closed
    {
      closed := true;
    }
  }

  /** The handles that are still open, in their order. */
  function OpenHandles(handles: seq<StreamHandle>): seq<StreamHandle>
    reads handles
  {
    if handles == [] then []
    else (if handles[0].closed then [] else [handles[0]]) + OpenHandles(handles[1..])
  }

  /** The handles kept are open ones from the list, and every open handle
      of the list is kept. */
  lemma {:induction false} OpenHandlesExactlyOpen(handles: seq<StreamHandle>)
    ensures |OpenHandles(handles)| <= |handles|
    ensures forall h | h in OpenHandles(handles) :: !h.closed && h in handles
    ensures forall i | 0 <= i < |handles| :: !handles[i].closed ==> handles[i] in OpenHandles(handles)
  {
    if handles != [] {
      OpenHandlesExactlyOpen(handles[1..]);
      forall i | 0 <= i < |handles| && !handles[i].closed
        ensures handles[i] in OpenHandles(handles)
      {
        if i > 0 {
          assert handles[1..][i - 1] == handles[i];
        }
      }
    }
  }

  lemma {:induction false} OpenHandlesAppend(handles: seq<StreamHandle>, h: StreamHandle)
    ensures OpenHandles(handles + [h]) == OpenHandles(handles) + (if h.closed then [] else [h])
  {
    if handles == [] {
      assert handles + [h] == [h];
    } else {
      assert (handles + [h])[1..] == handles[1..] + [h];
      OpenHandlesAppend(handles[1..], h);
    }
  }

  /** A request made through the connector's handle. */
  datatype HttpsConnectorRequest = Reset | SetConnectionMode(mode: ApiConnectionMode)

  /** The connector's shared inner state: the handles of the streams it
      produced and the mode it connects with. */
  class HttpsConnectorWithSni {
    var streamHandles: seq<StreamHandle>
    var proxyConfig: InnerConnectionMode

    /** `new`: direct, with no streams. */
    constructor ()
      ensures streamHandles == [] && proxyConfig == InnerDirect
    {
      streamHandles := [];
      proxyConfig := InnerDirect;
    }

    /** One turn of the request loop spawned by `new`: a valid new mode
        replaces the current one and an invalid one is ignored; then every
        handle is taken out of the list and closed. */
    method HandleRequest(request: HttpsConnectorRequest, cipherOf: string -> Option<CipherKind>)
      modifies this, streamHandles
      ensures streamHandles == []
      ensures request.Reset? ==> proxyConfig == old(proxyConfig)
      ensures request.SetConnectionMode? ==>
        proxyConfig == (match TryFromMode(request.mode, cipherOf)
                        case Ok(config) => config
                        case Err(_) => old(proxyConfig))
      ensures forall h | h in old(streamHandles) :: h.closed
    {
      if request.SetConnectionMode? {
        match TryFromMode(request.mode, cipherOf) {
          case Ok(config) => proxyConfig := config;
          case Err(_) =>
        }
      }
      var handles := streamHandles;
      streamHandles := [];
      var i := 0;
      while i < |handles|
        invariant 0 <= i <= |handles|
        invariant streamHandles == []
        invariant proxyConfig == (if request.SetConnectionMode? && TryFromMode(request.mode, cipherOf).Ok?
                                   then TryFromMode(request.mode, cipherOf).value else old(proxyConfig))
        invariant forall k | 0 <= k < i :: handles[k].closed
      {
        handles[i].Close();
        i := i + 1;
      }
    }

    /** `poll_ready`: keeps exactly the handles that are not closed, in
        their order. */
    method PollReady()
      modifies this
      ensures streamHandles == OpenHandles(old(streamHandles))
      ensures proxyConfig == old(proxyConfig)
    {
      var handles := streamHandles;
      var kept: seq<StreamHandle> := [];
      var i := 0;
      while i < |handles|
        invariant 0 <= i <= |handles|
        invariant kept == OpenHandles(handles[..i])
        invariant unchanged(this)
      {
        OpenHandlesAppend(handles[..i], handles[i]);
        assert handles[..i + 1] == handles[..i] + [handles[i]];
        if !handles[i].closed {
          kept := kept + [handles[i]];
        }
        i := i + 1;
      }
      assert handles[..i] == handles;
      streamHandles := kept;
    }

    /** `call`: checks the URI, resolves it, dials the first hop of the
        current mode (`dialled`; `connected` is the outcome of that
        connection) and, on success, records the new stream's handle. */
    method Call(uri: Uri, parseIp: string -> Option<IpAddr>,
                resolve: string -> Result<seq<SocketAddr>, IoError>,
                connected: Result<(), IoError>)
      returns (dialled: Option<SocketAddr>, r: Result<StreamHandle, IoError>)
      modifies this
      ensures proxyConfig == old(proxyConfig)
      ensures dialled.Some? <==> CallTarget(uri, old(proxyConfig), parseIp, resolve).Ok?
      ensures dialled.Some? ==> dialled.value == CallTarget(uri, old(proxyConfig), parseIp, resolve).value
      ensures CallTarget(uri, old(proxyConfig), parseIp, resolve).Err? ==>
        r == Err(CallTarget(uri, old(proxyConfig), parseIp, resolve).error)
      ensures CallTarget(uri, old(proxyConfig), parseIp, resolve).Ok? && connected.Err? ==>
        r == Err(connected.error)
      ensures r.Ok? <==> CallTarget(uri, old(proxyConfig), parseIp, resolve).Ok? && connected.Ok?
      ensures r.Ok? ==> fresh(r.value) && !r.value.closed && streamHandles == old(streamHandles) + [r.value]
      ensures r.Err? ==> streamHandles == old(streamHandles)
    {
      if !IsHttps(uri.scheme) {
        return None, Err(NotHttps);
      }
      if uri.host.None? {
        return None, Err(MissingHost);
      }
      var addr := ResolveAddress(uri, parseIp, resolve);
      if addr.Err? {
        return None, Err(addr.error);
      }
      dialled := Some(FirstHop(proxyConfig, addr.value));
      if connected.Err? {
        return dialled, Err(connected.error);
      }
      var handle := new StreamHandle();
      streamHandles := streamHandles + [handle];
      r := Ok(handle);
    }
  }
}
