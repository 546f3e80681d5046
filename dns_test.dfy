/** Two pieces of the DNS leak tests of the test manager (test-manager
    `tests::dns`): the counter that decides when enough DNS packets were
    seen, and the encoding of a set of content blockers as the resolver
    address the daemon is expected to use. */
module DnsTest {
  import opened Net

  // ---------------------------------------------------------------------
  // DnsPacketsFound

  /** The transport protocol of a captured packet. */
  datatype IpProtocol = UdpProtocol | TcpProtocol | OtherProtocol(number: byte)

  datatype ParsedPacket = ParsedPacket(source: SocketAddr, destination: SocketAddr, protocol: IpProtocol)

  const DnsPort: u16 := 53

  predicate IsDnsPacket(p: ParsedPacket)
  {
    p.destination.port == DnsPort || p.source.port == DnsPort
  }

  /** The counts of DNS packets seen so far. */
  datatype Counts = Counts(udp: nat, tcp: nat)

  /** What `handle_packet` does to the counts, and whether the capture
      should go on. */
  function PacketStep(c: Counts, minUdp: nat, minTcp: nat, p: ParsedPacket): (Counts, bool)
  {
    if !IsDnsPacket(p) then (c, true)
    else match p.protocol
      case UdpProtocol =>
        var c' := c.(udp := c.udp + 1);
        (c', c'.udp < minUdp || c'.tcp < minTcp)
      case TcpProtocol =>
        var c' := c.(tcp := c.tcp + 1);
        (c', c'.udp < minUdp || c'.tcp < minTcp)
      case OtherProtocol(_) => (c, true)
  }

  class DnsPacketsFound {
    var tcpCount: nat
    var udpCount: nat
    const minTcpCount: nat
    const minUdpCount: nat

    /** `new`: no packets seen yet. */
    constructor (minUdpCount: nat, minTcpCount: nat)
      ensures tcpCount == 0 && udpCount == 0
      ensures this.minUdpCount == minUdpCount && this.minTcpCount == minTcpCount
    {
      tcpCount := 0;
      udpCount := 0;
      this.minTcpCount := minTcpCount;
      this.minUdpCount := minUdpCount;
    }

    function Counted(): Counts
      reads this
    {
      Counts(udpCount, tcpCount)
    }

    /** `handle_packet`. */
    method HandlePacket(p: ParsedPacket) returns (shouldContinue: bool)
      modifies this
      ensures (Counted(), shouldContinue) == PacketStep(old(Counted()), minUdpCount, minTcpCount, p)
    {
      if p.destination.port != 53 && p.source.port != 53 {
        return true;
      }
      match p.protocol {
        case UdpProtocol => udpCount := udpCount + 1;
        case TcpProtocol => tcpCount := tcpCount + 1;
        case OtherProtocol(_) => return true;
      }
      shouldContinue := udpCount < minUdpCount || tcpCount < minTcpCount;
    }
  }

  /** One packet: a UDP DNS packet adds one to the UDP count only, a TCP
      one to the TCP count only, and anything else changes nothing and
      asks for more; the capture stops exactly when a counted packet brings
      both counts to their minimums. */
  lemma PacketStepBehaviour(c: Counts, minUdp: nat, minTcp: nat, p: ParsedPacket)
    ensures var (c', more) := PacketStep(c, minUdp, minTcp, p);
      && c'.udp == c.udp + (if IsDnsPacket(p) && p.protocol == UdpProtocol then 1 else 0)
      && c'.tcp == c.tcp + (if IsDnsPacket(p) && p.protocol == TcpProtocol then 1 else 0)
      && (!IsDnsPacket(p) || p.protocol.OtherProtocol? ==> c' == c && more)
      && (!more <==> c' != c && c'.udp >= minUdp && c'.tcp >= minTcp)
  {
  }

  /** The counts over a run of packets, each handled in turn. */
  function CountAll(c: Counts, minUdp: nat, minTcp: nat, packets: seq<ParsedPacket>): Counts
    decreases |packets|
  {
    if packets == [] then c
    else CountAll(PacketStep(c, minUdp, minTcp, packets[0]).0, minUdp, minTcp, packets[1..])
  }

  /** The number of packets of the given protocol sent to or from port 53. */
  function DnsPacketsOf(protocol: IpProtocol, packets: seq<ParsedPacket>): nat
  {
    if packets == [] then 0
    else (if IsDnsPacket(packets[0]) && packets[0].protocol == protocol then 1 else 0)
         + DnsPacketsOf(protocol, packets[1..])
  }

  /** Over any run, the counts grow by exactly the number of UDP and of
      TCP DNS packets seen, so they never decrease and grow by at most the
      run's length. */
  lemma {:induction false} CountsAreTallies(c: Counts, minUdp: nat, minTcp: nat, packets: seq<ParsedPacket>)
    ensures CountAll(c, minUdp, minTcp, packets).udp == c.udp + DnsPacketsOf(UdpProtocol, packets)
    ensures CountAll(c, minUdp, minTcp, packets).tcp == c.tcp + DnsPacketsOf(TcpProtocol, packets)
    ensures DnsPacketsOf(UdpProtocol, packets) + DnsPacketsOf(TcpProtocol, packets) <= |packets|
    decreases |packets|
  {
    if packets != [] {
      PacketStepBehaviour(c, minUdp, minTcp, packets[0]);
      CountsAreTallies(PacketStep(c, minUdp, minTcp, packets[0]).0, minUdp, minTcp, packets[1..]);
    }
  }

  // ---------------------------------------------------------------------
  // combine_cases

  datatype DefaultDnsOptions = DefaultDnsOptions(
    blockAds: bool,
    blockTrackers: bool,
    blockMalware: bool,
    blockAdultContent: bool,
    blockGambling: bool)

  const NoBlocking: DefaultDnsOptions := DefaultDnsOptions(false, false, false, false, false)

  /** A content blocker under test: its name, its bit in the resolver
      address, and the option that enables it. */
  datatype BlockerCase = BlockerCase(name: string, bit: bv8, options: DefaultDnsOptions)

  const ContentBlockers: seq<BlockerCase> := [
    BlockerCase("adblocking", 1 << 0, NoBlocking.(blockAds := true)),
    BlockerCase("tracker", 1 << 1, NoBlocking.(blockTrackers := true)),
    BlockerCase("malware", 1 << 2, NoBlocking.(blockMalware := true)),
    BlockerCase("adult", 1 << 3, NoBlocking.(blockAdultContent := true)),
    BlockerCase("gambling", 1 << 4, NoBlocking.(blockGambling := true))
  ]

  /** The octets of the blocking resolvers' base address, 100.64.0.0. */
  const DnsBlockingIpBase: seq<bv8> := [100, 64, 0, 0]

  function OrOptions(a: DefaultDnsOptions, b: DefaultDnsOptions): DefaultDnsOptions
  {
    DefaultDnsOptions(
      a.blockAds || b.blockAds,
      a.blockTrackers || b.blockTrackers,
      a.blockMalware || b.blockMalware,
      a.blockAdultContent || b.blockAdultContent,
      a.blockGambling || b.blockGambling)
  }

  /** The accumulated name after each case: " + " goes before a name
      unless nothing has been written yet. */
  function CombinedName(cases: seq<BlockerCase>): string
  {
    if cases == [] then ""
    else
      var prefix := CombinedName(cases[..|cases| - 1]);
      (if prefix != "" then prefix + " + " else prefix) + cases[|cases| - 1].name
  }

  function CombinedBits(cases: seq<BlockerCase>): bv8
  {
    if cases == [] then 0 else CombinedBits(cases[..|cases| - 1]) | cases[|cases| - 1].bit
  }

  function CombinedOptions(cases: seq<BlockerCase>): DefaultDnsOptions
  {
    if cases == [] then NoBlocking
    else OrOptions(CombinedOptions(cases[..|cases| - 1]), cases[|cases| - 1].options)
  }

  function Octet(b: bv8): byte
  {
    b as int
  }

  /** The `combine_cases` closure: the name of the combination, the
      resolver address it should produce, and the options enabling it. */
  method CombineCases(cases: seq<BlockerCase>) returns (name: string, ip: IpAddr, options: DefaultDnsOptions)
    ensures name == CombinedName(cases)
    ensures ip == V4(100, 64, 0, Octet(CombinedBits(cases)))
    ensures options == CombinedOptions(cases)
  {
    name := "";
    var lastByte: bv8 := 0;
    options := NoBlocking;
    var i := 0;
    while i < |cases|
      invariant 0 <= i <= |cases|
      invariant name == CombinedName(cases[..i])
      invariant lastByte == CombinedBits(cases[..i])
      invariant options == CombinedOptions(cases[..i])
    {
      assert cases[..i + 1][..i] == cases[..i];
      var c := cases[i];
      if name != "" {
        name := name + " + ";
      }
      name := name + c.name;
      lastByte := lastByte | c.bit;
      options := OrOptions(options, c.options);
      i := i + 1;
    }
    assert cases[..i] == cases;
    var dnsIp := DnsBlockingIpBase;
    dnsIp := dnsIp[|dnsIp| - 1 := dnsIp[|dnsIp| - 1] | lastByte];
    ip := V4(Octet(dnsIp[0]), Octet(dnsIp[1]), Octet(dnsIp[2]), Octet(dnsIp[3]));
  }

  /** The five cases have the distinct bits 1, 2, 4, 8 and 16, and each
      enables exactly its own option. */
  lemma ContentBlockerBits()
    ensures forall i | 0 <= i < |ContentBlockers| :: ContentBlockers[i].bit == 1 << i
    ensures forall i, j | 0 <= i < j < |ContentBlockers| :: ContentBlockers[i].bit & ContentBlockers[j].bit == 0
    ensures |ContentBlockers| == 5
  {
  }

  /** Case i of the subset `mask`: present when bit i is set. */
  function Pick(mask: bv8, i: nat): seq<BlockerCase>
    requires i < |ContentBlockers|
  {
    if mask & ContentBlockers[i].bit != 0 then [ContentBlockers[i]] else []
  }

  /** The cases `powerset` yields for the subset `mask`, in their listed
      order. */
  function Chosen(mask: bv8): seq<BlockerCase>
  {
    Pick(mask, 0) + Pick(mask, 1) + Pick(mask, 2) + Pick(mask, 3) + Pick(mask, 4)
  }

  lemma {:induction false} CombinedBitsConcat(s: seq<BlockerCase>, t: seq<BlockerCase>)
    ensures CombinedBits(s + t) == CombinedBits(s) | CombinedBits(t)
    decreases |t|
  {
    if t == [] {
      assert s + t == s;
    } else {
      var t' := t[..|t| - 1];
      assert (s + t)[..|s + t| - 1] == s + t';
      CombinedBitsConcat(s, t');
    }
  }

  lemma {:induction false} CombinedOptionsConcat(s: seq<BlockerCase>, t: seq<BlockerCase>)
    ensures CombinedOptions(s + t) == OrOptions(CombinedOptions(s), CombinedOptions(t))
    decreases |t|
  {
    if t == [] {
      assert s + t == s;
    } else {
      var t' := t[..|t| - 1];
      assert (s + t)[..|s + t| - 1] == s + t';
      CombinedOptionsConcat(s, t');
    }
  }

  lemma PickCombines(mask: bv8, i: nat)
    requires i < |ContentBlockers|
    ensures CombinedBits(Pick(mask, i)) == mask & ContentBlockers[i].bit
    ensures CombinedOptions(Pick(mask, i)) ==
      if mask & ContentBlockers[i].bit != 0 then ContentBlockers[i].options else NoBlocking
  {
    if mask & ContentBlockers[i].bit != 0 {
      assert Pick(mask, i)[..0] == [];
    }
  }

  lemma ChosenBits(mask: bv8)
    ensures CombinedBits(Chosen(mask)) == (mask & 1) | (mask & 2) | (mask & 4) | (mask & 8) | (mask & 16)
  {
    var p0, p1, p2, p3, p4 := Pick(mask, 0), Pick(mask, 1), Pick(mask, 2), Pick(mask, 3), Pick(mask, 4);
    CombinedBitsConcat(p0, p1);
    CombinedBitsConcat(p0 + p1, p2);
    CombinedBitsConcat(p0 + p1 + p2, p3);
    CombinedBitsConcat(p0 + p1 + p2 + p3, p4);
    PickCombines(mask, 0);
    PickCombines(mask, 1);
    PickCombines(mask, 2);
    PickCombines(mask, 3);
    PickCombines(mask, 4);
  }

  lemma LowFiveBits(mask: bv8)
    requires mask < 32
    ensures (mask & 1) | (mask & 2) | (mask & 4) | (mask & 8) | (mask & 16) == mask
  {
  }

  /** The last octet of the resolver address is the chosen subset itself,
      read as a 5-bit number, so distinct subsets give distinct addresses
      and every non-empty subset gives an octet in 1..31. */
  lemma SubsetEncodesAsOctet(mask: bv8, mask': bv8)
    requires mask < 32 && mask' < 32
    ensures CombinedBits(Chosen(mask)) == mask
    ensures Chosen(mask) != [] ==> 1 <= Octet(CombinedBits(Chosen(mask))) <= 31
    ensures mask != mask' ==> CombinedBits(Chosen(mask)) != CombinedBits(Chosen(mask'))
  {
    ChosenBits(mask);
    ChosenBits(mask');
    LowFiveBits(mask);
    LowFiveBits(mask');
    if mask == 0 {
      assert Chosen(mask) == [];
    }
  }

  /** Each option is enabled exactly when its case was chosen. */
  lemma ChosenOptions(mask: bv8)
    ensures var o := CombinedOptions(Chosen(mask));
      && (o.blockAds <==> mask & 1 != 0)
      && (o.blockTrackers <==> mask & 2 != 0)
      && (o.blockMalware <==> mask & 4 != 0)
      && (o.blockAdultContent <==> mask & 8 != 0)
      && (o.blockGambling <==> mask & 16 != 0)
  {
    var p0, p1, p2, p3, p4 := Pick(mask, 0), Pick(mask, 1), Pick(mask, 2), Pick(mask, 3), Pick(mask, 4);
    CombinedOptionsConcat(p0, p1);
    CombinedOptionsConcat(p0 + p1, p2);
    CombinedOptionsConcat(p0 + p1 + p2, p3);
    CombinedOptionsConcat(p0 + p1 + p2 + p3, p4);
    PickCombines(mask, 0);
    PickCombines(mask, 1);
    PickCombines(mask, 2);
    PickCombines(mask, 3);
    PickCombines(mask, 4);
  }

  /** The names joined by " + ", the way `join` would. */
  function JoinNames(names: seq<string>): string
  {
    if names == [] then ""
    else if |names| == 1 then names[0]
    else JoinNames(names[..|names| - 1]) + " + " + names[|names| - 1]
  }

  function Names(cases: seq<BlockerCase>): (names: seq<string>)
    ensures |names| == |cases|
    ensures forall i | 0 <= i < |cases| :: names[i] == cases[i].name
  {
    if cases == [] then [] else Names(cases[..|cases| - 1]) + [cases[|cases| - 1].name]
  }

  /** With non-empty case names, as all five are, the combination name is
      the names in order joined by " + ". */
  lemma {:induction false} CombinedNameIsJoin(cases: seq<BlockerCase>)
    requires forall i | 0 <= i < |cases| :: cases[i].name != ""
    ensures CombinedName(cases) == JoinNames(Names(cases))
    ensures cases != [] ==> CombinedName(cases) != ""
  {
    if cases != [] {
      var init := cases[..|cases| - 1];
      CombinedNameIsJoin(init);
      assert Names(cases)[..|cases| - 1] == Names(init);
    }
  }
}
