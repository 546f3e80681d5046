/** WireGuard tunnel parameters and keys (talpid-types, `net::wireguard`):
    which endpoint a tunnel dials first, the endpoints of the entry and exit
    peers, and the 32-byte keys with their base64 text form. */
module WireGuard {
  import opened Net
  import opened Wrappers
  import Base64

  /** The length in bytes of every WireGuard key. */
  const KeyLength: nat := 32

  /** The bytes of an x25519 key (`[u8; 32]`). */
  type KeyBytes = s: seq<byte> | |s| == 32 witness seq(32, _ => 0)

  datatype PrivateKey = PrivateKey(bytes: KeyBytes) {
    function ToBytes(): KeyBytes { bytes }
    function ToBase64(): string { Base64.Encode(bytes) }
  }

  datatype PublicKey = PublicKey(bytes: KeyBytes) {
    function AsBytes(): KeyBytes { bytes }
    function ToBase64(): string { Base64.Encode(bytes) }
  }

  /** A quantum-resistant preshared key. */
  datatype PresharedKey = PresharedKey(bytes: KeyBytes)

  /** Why a text or byte slice is not a key. */
  datatype InvalidKey =
    | Format          // the text is not valid base64
    | Length(n: nat)  // the decoded bytes are not 32 long

  datatype IpNetwork = IpNetwork(ip: IpAddr, prefix: nat)

  datatype PeerConfig = PeerConfig(
    publicKey: PublicKey,
    allowedIps: seq<IpNetwork>,
    endpoint: SocketAddr,
    psk: Option<PresharedKey>)

  datatype TunnelConfig = TunnelConfig(privateKey: PrivateKey, addresses: seq<IpAddr>)

  /** Connection-specific configuration (Linux, so it carries `fwmark`). */
  datatype ConnectionConfig = ConnectionConfig(
    tunnel: TunnelConfig,
    peer: PeerConfig,
    exitPeer: Option<PeerConfig>,
    ipv4Gateway: IpAddr,
    ipv6Gateway: Option<IpAddr>,
    fwmark: Option<nat>)

  datatype TunnelOptions = TunnelOptions(mtu: Option<u16>, quantumResistant: bool)

  /** An obfuscation layer, reduced to the endpoint its obfuscator listens on
      (`get_obfuscator_endpoint`). */
  datatype ObfuscatorConfig = ObfuscatorConfig(endpoint: Endpoint)

  datatype TunnelParameters = TunnelParameters(
    connection: ConnectionConfig,
    options: TunnelOptions,
    obfuscation: Option<ObfuscatorConfig>)

  /** `ConnectionConfig::get_endpoint`: the entry peer, over UDP. */
  function GetEndpoint(c: ConnectionConfig): (e: Endpoint)
    ensures e.address == c.peer.endpoint && e.protocol == Udp
  {
    Endpoint(c.peer.endpoint, Udp)
  }

  /** `ConnectionConfig::get_exit_endpoint`: the exit peer over UDP, if the
      connection is multihop. */
  function GetExitEndpoint(c: ConnectionConfig): (r: Option<Endpoint>)
    ensures r.None? <==> c.exitPeer.None?
    ensures r.Some? ==> r.value.address == c.exitPeer.value.endpoint && r.value.protocol == Udp
  {
    match c.exitPeer
    case None => None
    case Some(peer) => Some(Endpoint(peer.endpoint, Udp))
  }

  /** `TunnelParameters::get_next_hop_endpoint`: the endpoint that is
      actually dialled, which is the obfuscator's when there is one. */
  function GetNextHopEndpoint(p: TunnelParameters): (e: Endpoint)
    ensures p.obfuscation.Some? ==> e == p.obfuscation.value.endpoint
    ensures p.obfuscation.None? ==> e.address == p.connection.peer.endpoint && e.protocol == Udp
  {
    match p.obfuscation
    case Some(proxy) => proxy.endpoint
    case None => GetEndpoint(p.connection)
  }

  /** Private keys are equal when their bytes are. */
  function PrivateKeyEq(a: PrivateKey, b: PrivateKey): (r: bool)
    ensures r <==> a == b
  {
    a.ToBytes() == b.ToBytes()
  }

  /** Public keys are equal when their bytes are. */
  function PublicKeyEq(a: PublicKey, b: PublicKey): (r: bool)
    ensures r <==> a == b
  {
    a.AsBytes() == b.AsBytes()
  }

  /** What `Hash for PublicKey` feeds to the hasher: the key bytes only. */
  function HashInput(k: PublicKey): seq<byte>
  {
    k.AsBytes()
  }

  /** Hashing agrees with equality, as `Hash` and `Eq` must: equal keys feed
      the hasher the same input, and keys that feed it the same input are
      equal. */
  lemma HashAgreesWithEq(a: PublicKey, b: PublicKey)
    ensures PublicKeyEq(a, b) <==> HashInput(a) == HashInput(b)
  {
  }

  /** `TryFrom<&[u8]> for PublicKey`: exactly 32 bytes make a key. */
  function PublicKeyTryFrom(slice: seq<byte>): (r: Result<PublicKey, InvalidKey>)
    ensures |slice| != KeyLength ==> r == Err(Length(|slice|))
    ensures |slice| == KeyLength ==> r.Ok? && r.value.AsBytes() == slice
  {
    if |slice| != 32 then Err(Length(|slice|)) else Ok(PublicKey(slice))
  }

  /** The reference definition of `key_from_base64`: what it returns, as a
      function of its input. `KeyFromBase64` below computes it step by
      step, and the key deserialisers are defined on it. */
  function DecodeKey(key: string): (r: Result<KeyBytes, InvalidKey>)
    ensures Base64.Decode(key).None? <==> r == Err(Format)
    ensures (Base64.Decode(key).Some? && |Base64.Decode(key).value| != KeyLength)
            ==> r == Err(Length(|Base64.Decode(key).value|))
    ensures r.Ok? <==> Base64.Decode(key).Some? && |Base64.Decode(key).value| == KeyLength
    ensures r.Ok? ==> Base64.Decode(key) == Some(r.value)
  {
    match Base64.Decode(key)
    case None => Err(Format)
    case Some(bytes) => if |bytes| != 32 then Err(Length(|bytes|)) else Ok(bytes)
  }

  /** `key_from_base64`: decodes the text and copies the 32 decoded bytes
      into a fresh key buffer. */
  method KeyFromBase64(key: string) returns (r: Result<KeyBytes, InvalidKey>)
    ensures r == DecodeKey(key)
  {
    var decoded := Base64.Decode(key);
    if decoded.None? {
      return Err(Format);
    }
    var bytes := decoded.value;
    if |bytes| != 32 {
      return Err(Length(|bytes|));
    }
    var buffer := new byte[32](_ => 0);
    var i := 0;
    while i < 32
      invariant 0 <= i <= 32
      invariant forall k | 0 <= k < i :: buffer[k] == bytes[k]
    {
      buffer[i] := bytes[i];
      i := i + 1;
    }
    assert |buffer[..]| == |bytes|;
    assert forall k | 0 <= k < 32 :: buffer[..][k] == bytes[k];
    assert buffer[..] == bytes;
    return Ok(buffer[..]);
  }

  /** The texts `key_from_base64` accepts are exactly the base64 encodings
      of 32 bytes, and it returns those bytes. */
  lemma DecodeKeyAcceptsExactlyEncodings(key: string, bytes: KeyBytes)
    ensures DecodeKey(key) == Ok(bytes) <==> key == Base64.Encode(bytes)
  {
    if DecodeKey(key) == Ok(bytes) {
      Base64.EncodeDecode(key);
    }
    if key == Base64.Encode(bytes) {
      Base64.DecodeEncode(bytes);
    }
  }

  /** `Serialize`: the key as its base64 string (`serialize_key`), the
      same text as `to_base64`: 44 characters for 32 bytes. */
  function SerializePrivateKey(k: PrivateKey): (s: string)
    ensures s == k.ToBase64() && |s| == 44
  {
    Base64.Encode(k.ToBytes())
  }

  function SerializePublicKey(k: PublicKey): (s: string)
    ensures s == k.ToBase64() && |s| == 44
  {
    Base64.Encode(k.AsBytes())
  }

  /** `Deserialize` (`deserialize_key`): a string that `key_from_base64`
      accepts, as a key. */
  function DeserializePrivateKey(s: string): (r: Result<PrivateKey, InvalidKey>)
    ensures r.Ok? ==> SerializePrivateKey(r.value) == s
    ensures r.Err? <==> DecodeKey(s).Err?
    ensures r.Err? ==> r.error == DecodeKey(s).error
  {
    match DecodeKey(s)
    case Ok(bytes) => Base64.EncodeDecode(s); Ok(PrivateKey(bytes))
    case Err(e) => Err(e)
  }

  function DeserializePublicKey(s: string): (r: Result<PublicKey, InvalidKey>)
    ensures r.Ok? ==> SerializePublicKey(r.value) == s
    ensures r.Err? <==> DecodeKey(s).Err?
    ensures r.Err? ==> r.error == DecodeKey(s).error
  {
    match DecodeKey(s)
    case Ok(bytes) => Base64.EncodeDecode(s); Ok(PublicKey(bytes))
    case Err(e) => Err(e)
  }

  /** Serialising a key and deserialising the string gives an equal key;
      the same holds for `to_base64` followed by `from_base64`. */
  lemma KeySerdeRoundTrip(priv: PrivateKey, pub: PublicKey)
    ensures DeserializePrivateKey(SerializePrivateKey(priv)) == Ok(priv)
    ensures DeserializePublicKey(SerializePublicKey(pub)) == Ok(pub)
    ensures DecodeKey(priv.ToBase64()) == Ok(priv.ToBytes())
    ensures DecodeKey(pub.ToBase64()) == Ok(pub.AsBytes())
  {
    Base64.DecodeEncode(priv.ToBytes());
    Base64.DecodeEncode(pub.AsBytes());
  }

  /** Base64 text that decodes to anything but 32 bytes is refused with the
      decoded length, so no string is both a key and a length error. */
  lemma DecodeKeyLengthError(bytes: seq<byte>)
    requires |bytes| != KeyLength
    ensures DecodeKey(Base64.Encode(bytes)) == Err(Length(|bytes|))
  {
    Base64.DecodeEncode(bytes);
  }
}
