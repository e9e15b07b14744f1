/** The Ethernet frames of esl/sw/dep/transport.cpp: assembling a PTP message into one and finding it again. */
module Frame {
  import opened Bits
  import opened DataSets
  import opened Crc32
  import opened Layout

  const BUFFER := 256

  datatype Addresses = Addresses(
    macDa: seq<Octet>, macSa: seq<Octet>, ipv4Sa: seq<Octet>, ipv4Da: seq<Octet>, ipv6Sa: seq<Octet>, ipv6Da: seq<Octet>)

  predicate ValidAddresses(a: Addresses) {
    |a.macDa| == |a.macSa| == 6 && |a.ipv4Sa| == |a.ipv4Da| == 4 && |a.ipv6Sa| == |a.ipv6Da| == 16
  }

  datatype Network = UdpIpv4 | UdpIpv6 | Ieee8023
  datatype Encapsulation = Ether2 | Snap | Pppoe

  type VlanTags = x: int | 0 <= x <= 2

  // ---- The parts of a frame

  predicate IsIpv4(lengthType: UInt16, ether2Type: UInt16) {
    lengthType == 0x0800 || (lengthType < 1500 && ether2Type == 0x0800) || (lengthType == 0x8864 && ether2Type == 0x0021)
  }

  predicate IsIpv6(lengthType: UInt16, ether2Type: UInt16) {
    lengthType == 0x86dd || (lengthType < 1500 && ether2Type == 0x86dd) || (lengthType == 0x8864 && ether2Type == 0x0057)
  }

  function Tags(vlan: VlanTags): (s: seq<Octet>)
    ensures |s| == 4 * vlan
  {
    if vlan == 2 then [0x88, 0xa8, 0x00, 0x02, 0x81, 0x00, 0x00, 0x02]
    else if vlan == 1 then [0x81, 0x00, 0x00, 0x02]
    else []
  }

  /** The SNAP header of a length field, or the PPPoE header. */
  function Shim(lengthType: UInt16, ether2Type: UInt16): seq<Octet> {
    if lengthType <= 1500 then [0xaa, 0xaa, 0x00, 0x00, 0x00, 0x00] + Wide(ether2Type)
    else if lengthType == 0x8864 then [0x00, 0x00, 0x00, 0x00, 0x00, 0x00] + Wide(ether2Type)
    else []
  }

  function Ipv4Header(a: Addresses, msgLen: nat): seq<Octet>
    requires 28 + msgLen < 0x1_0000
  {
    [0x45, 0x00] + Wide(28 + msgLen) + [0x00, 0x00, 0x00, 0x00, 0xff, 17, 0x00, 0x00] + a.ipv4Sa + a.ipv4Da
  }

  function Ipv6Header(a: Addresses, msgLen: nat): seq<Octet>
    requires 10 + msgLen < 0x1_0000
  {
    [0x60, 0x00, 0x00, 0x00] + Wide(8 + msgLen + 2) + [17, 0xff] + a.ipv6Sa + a.ipv6Da
  }

  function UdpHeader(port: UInt16, udpLen: UInt16): (s: seq<Octet>)
    ensures |s| == 8
  {
    [0x00, 0x00] + Wide(port) + Wide(udpLen) + [0xab, 0xcd]
  }

  function IpUdp(a: Addresses, lengthType: UInt16, ether2Type: UInt16, msgLen: nat, port: UInt16): seq<Octet>
    requires 28 + msgLen < 0x1_0000
  {
    if IsIpv4(lengthType, ether2Type) then Ipv4Header(a, msgLen) + UdpHeader(port, 8 + msgLen)
    else if IsIpv6(lengthType, ether2Type) then Ipv6Header(a, msgLen) + UdpHeader(port, 8 + msgLen + 2)
    else []
  }

  function Headers(a: Addresses, lengthType: UInt16, ether2Type: UInt16, vlan: VlanTags, msgLen: nat, port: UInt16): seq<Octet>
    requires 28 + msgLen < 0x1_0000
  {
    a.macDa + a.macSa + Tags(vlan) + Wide(lengthType) + Shim(lengthType, ether2Type)
    + IpUdp(a, lengthType, ether2Type, msgLen, port)
  }

  /** Octets appended so that the frame without its tags reaches 64 with the check sequence; always two for IPv6. */
  function PadLength(len: nat, vlan: VlanTags, ipv6: bool): nat {
    if ipv6 then 2 else if 64 - (len - 4 * vlan + 4) > 0 then 64 - (len - 4 * vlan + 4) else 0
  }

  function Zeros(n: nat): (s: seq<Octet>)
    ensures |s| == n && forall i :: 0 <= i < n ==> s[i] == 0
  {
    seq(n, i => 0)
  }

  function Payload(a: Addresses, msg: seq<Octet>, lengthType: UInt16, ether2Type: UInt16, vlan: VlanTags, port: UInt16): seq<Octet>
    requires 28 + |msg| < 0x1_0000
  {
    var body := Headers(a, lengthType, ether2Type, vlan, |msg|, port) + msg;
    body + Zeros(PadLength(|body|, vlan, IsIpv6(lengthType, ether2Type)))
  }

  /** The whole frame: everything, then the check sequence over everything. */
  function Assembled(a: Addresses, msg: seq<Octet>, lengthType: UInt16, ether2Type: UInt16, vlan: VlanTags, port: UInt16): seq<Octet>
    requires 28 + |msg| < 0x1_0000
  {
    var p := Payload(a, msg, lengthType, ether2Type, vlan, port);
    p + FcsOctets(p)
  }

  /** What a receiver computes over any assembled frame, its check sequence included, is the constant of IEEE 802.3. */
  lemma AssembledResidue(a: Addresses, msg: seq<Octet>, lengthType: UInt16, ether2Type: UInt16, vlan: VlanTags, port: UInt16)
    requires 28 + |msg| < 0x1_0000
    ensures Fcs(Assembled(a, msg, lengthType, ether2Type, vlan, port)) == 0x2144_DF1C
  {
    hide Fcs, FcsOctets, Payload;
    FcsResidue(Payload(a, msg, lengthType, ether2Type, vlan, port));
  }

  // ---- Choosing the type fields

  function LengthType(network: Network, encapsulation: Encapsulation, msgLen: nat): UInt16
    requires msgLen <= BUFFER
  {
    match encapsulation {
      case Ether2 => (match network { case UdpIpv4 => 0x0800 case UdpIpv6 => 0x86dd case Ieee8023 => 0x88f7 })
      case Snap =>
        12 + 2 + 8 + 4 + (match network {
          case UdpIpv4 => 20 + 8 + msgLen
          case UdpIpv6 => 40 + 8 + msgLen + 2
          case Ieee8023 => msgLen
        })
      case Pppoe => 0x8864
    }
  }

  function Ether2Type(network: Network, encapsulation: Encapsulation): UInt16 {
    match encapsulation {
      case Ether2 => 0
      case Snap => (match network { case UdpIpv4 => 0x0800 case UdpIpv6 => 0x86dd case Ieee8023 => 0x88f7 })
      case Pppoe => (match network { case UdpIpv4 => 0x0021 case UdpIpv6 => 0x0057 case Ieee8023 => 0 })
    }
  }

  function UdpPort(messageType: Octet): UInt16 { if messageType < 8 then 319 else 320 }

  /** transmit: the frame for a message. */
  function FrameOf(a: Addresses, network: Network, encapsulation: Encapsulation, vlan: VlanTags, msg: seq<Octet>,
                   messageType: Octet): seq<Octet>
    requires |msg| <= BUFFER
  {
    Assembled(a, msg, LengthType(network, encapsulation, |msg|), Ether2Type(network, encapsulation), vlan, UdpPort(messageType))
  }

  // ---- Parsing

  /** Where a message starts, how long it says it is, and its type. */
  datatype Parsed = NotPtp | Ptp(head: nat, length: UInt16, messageType: Octet)

  predicate IsPtpUdp(f: seq<Octet>, protocolAt: nat, portAt: nat)
    requires protocolAt < |f| && portAt + 1 < |f|
  {
    f[protocolAt] == 17 && (At16(f, portAt) == 319 || At16(f, portAt) == 320)
  }

  predicate IsTag(t: UInt16) { t == 0x88a8 || t == 0x9100 || t == 0x9200 || t == 0x9300 || t == 0x8100 }

  /** The type field behind zero, one or two tags, and the octets the tags take. */
  function Untagged(f: seq<Octet>): (UInt16, nat)
    requires |f| == BUFFER
  {
    var t0 := At16(f, 12);
    var (t1, o1) := if t0 == 0x8100 then (At16(f, 16), 4) else (t0, 0);
    if IsTag(t1) then (At16(f, 20), 8) else (t1, o1)
  }

  /** The octets between the type field and the message, if there is one. */
  function Overhead(f: seq<Octet>, ethType: UInt16, m: nat): (r: int)
    requires |f| == BUFFER && m <= 22
    ensures -1 <= r <= 56
  {
    if ethType == 0x88f7 then 0
    else if ethType == 0x0800 then if IsPtpUdp(f, m + 9, m + 22) then 28 else -1
    else if ethType == 0x86dd then if IsPtpUdp(f, m + 6, m + 42) then 48 else -1
    else if ethType == 0x8864 then
      if At16(f, m + 6) == 0x0021 then if IsPtpUdp(f, m + 17, m + 30) then 36 else -1
      else if At16(f, m + 6) == 0x0057 then if IsPtpUdp(f, m + 14, m + 50) then 56 else -1
      else -1
    else if ethType <= 1500 && f[m] == 0xaa && f[m + 1] == 0xaa then
      if At16(f, m + 6) == 0x0800 then if IsPtpUdp(f, m + 17, m + 30) then 36 else -1
      else if At16(f, m + 6) == 0x86dd then if IsPtpUdp(f, m + 14, m + 50) then 56 else -1
      else if At16(f, m + 6) == 0x88f7 then 8
      else -1
    else -1
  }

  function Parse(f: seq<Octet>): Parsed
    requires |f| == BUFFER
  {
    var (ethType, tags) := Untagged(f);
    var overhead := Overhead(f, ethType, 14 + tags);
    if overhead < 0 then NotPtp
    else
      var head := 14 + tags + overhead;
      Ptp(head, At16(f, head + 2), f[head] % 16)
  }

  // ---- Parsing undoes assembling

  /** The octets between type field and message. */
  function Upper(a: Addresses, network: Network, encapsulation: Encapsulation, msgLen: nat, port: UInt16): seq<Octet>
    requires msgLen <= BUFFER
  {
    var t, e := LengthType(network, encapsulation, msgLen), Ether2Type(network, encapsulation);
    Shim(t, e) + IpUdp(a, t, e, msgLen, port)
  }

  function UpperLength(network: Network, encapsulation: Encapsulation): nat {
    (if encapsulation == Ether2 then 0 else 8)
    + match network { case UdpIpv4 => 28 case UdpIpv6 => 48 case Ieee8023 => 0 }
  }

  /** Everything a parser looks at is where it looks. */
  predicate Laid(f: seq<Octet>, m: nat, network: Network, encapsulation: Encapsulation, port: UInt16)
    requires |f| == BUFFER && m <= 22
  {
    var s := if encapsulation == Ether2 then 0 else 8;
    && (encapsulation == Snap ==> f[m] == f[m + 1] == 0xaa)
    && (encapsulation != Ether2 ==> At16(f, m + 6) == Ether2Type(network, encapsulation))
    && (network == UdpIpv4 ==> f[m + s + 9] == 17 && At16(f, m + s + 22) == port)
    && (network == UdpIpv6 ==> f[m + s + 6] == 17 && At16(f, m + s + 42) == port)
  }

  lemma UpperSize(a: Addresses, network: Network, encapsulation: Encapsulation, msgLen: nat, port: UInt16)
    requires ValidAddresses(a) && msgLen <= BUFFER
    ensures |Upper(a, network, encapsulation, msgLen, port)| == UpperLength(network, encapsulation)
  {}

  lemma ShimAt(network: Network, encapsulation: Encapsulation, msgLen: nat)
    requires msgLen <= BUFFER && encapsulation != Ether2
    ensures var s := Shim(LengthType(network, encapsulation, msgLen), Ether2Type(network, encapsulation));
      |s| == 8 && At16(s, 6) == Ether2Type(network, encapsulation) && (encapsulation == Snap ==> s[0] == s[1] == 0xaa)
  {
    hide Wide;
    WideAt(Ether2Type(network, encapsulation));
  }

  lemma UdpAt(port: UInt16, udpLen: UInt16)
    ensures At16(UdpHeader(port, udpLen), 2) == port
  {
    var h := UdpHeader(port, udpLen);
    assert h[2] == Wide(port)[0] && h[3] == Wide(port)[1];
  }

  lemma Ipv4At(a: Addresses, msgLen: nat, port: UInt16)
    requires ValidAddresses(a) && msgLen <= BUFFER
    ensures var s := Ipv4Header(a, msgLen) + UdpHeader(port, 8 + msgLen);
      |s| == 28 && s[9] == 17 && At16(s, 22) == port
  {
    hide UdpHeader;
    var h, u := Ipv4Header(a, msgLen), UdpHeader(port, 8 + msgLen);
    UdpAt(port, 8 + msgLen);
    assert |h| == 20 && h[9] == 17;
    assert (h + u)[22] == u[2] && (h + u)[23] == u[3];
  }

  lemma Ipv6At(a: Addresses, msgLen: nat, port: UInt16)
    requires ValidAddresses(a) && msgLen <= BUFFER
    ensures var s := Ipv6Header(a, msgLen) + UdpHeader(port, 8 + msgLen + 2);
      |s| == 48 && s[6] == 17 && At16(s, 42) == port
  {
    hide UdpHeader;
    var h, u := Ipv6Header(a, msgLen), UdpHeader(port, 8 + msgLen + 2);
    UdpAt(port, 8 + msgLen + 2);
    assert |h| == 40 && h[6] == 17;
    assert (h + u)[42] == u[2] && (h + u)[43] == u[3];
  }

  lemma IpUdpAt(a: Addresses, network: Network, encapsulation: Encapsulation, msgLen: nat, port: UInt16)
    requires ValidAddresses(a) && msgLen <= BUFFER
    ensures var s := IpUdp(a, LengthType(network, encapsulation, msgLen), Ether2Type(network, encapsulation), msgLen, port);
      match network {
        case UdpIpv4 => |s| == 28 && s[9] == 17 && At16(s, 22) == port
        case UdpIpv6 => |s| == 48 && s[6] == 17 && At16(s, 42) == port
        case Ieee8023 => s == []
      }
  {
    hide UdpHeader, Ipv4Header, Ipv6Header;
    Ipv4At(a, msgLen, port);
    Ipv6At(a, msgLen, port);
  }

  lemma UpperIsLaid(f: seq<Octet>, m: nat, a: Addresses, network: Network, encapsulation: Encapsulation, msgLen: nat, port: UInt16)
    requires ValidAddresses(a) && msgLen <= BUFFER && |f| == BUFFER && m <= 22
    requires Follows(f, m, Upper(a, network, encapsulation, msgLen, port))
    ensures Laid(f, m, network, encapsulation, port)
  {
    hide Shim, IpUdp, Follows, LengthType, Ether2Type, At16;
    var t, e := LengthType(network, encapsulation, msgLen), Ether2Type(network, encapsulation);
    var s, u := Shim(t, e), IpUdp(a, t, e, msgLen, port);
    FollowsParts(f, m, s, u);
    IpUdpAt(a, network, encapsulation, msgLen, port);
    if encapsulation == Ether2 {
      NoShim(network, msgLen);
    } else {
      ShimAt(network, encapsulation, msgLen);
      FollowsAt16(f, m, s, 6);
      FollowsOctet(f, m, s, 0);
      FollowsOctet(f, m, s, 1);
    }
    if network == UdpIpv4 {
      FollowsAt16(f, m + |s|, u, 22);
      FollowsOctet(f, m + |s|, u, 9);
    } else if network == UdpIpv6 {
      FollowsAt16(f, m + |s|, u, 42);
      FollowsOctet(f, m + |s|, u, 6);
    }
  }

  lemma NoShim(network: Network, msgLen: nat)
    requires msgLen <= BUFFER
    ensures Shim(LengthType(network, Ether2, msgLen), Ether2Type(network, Ether2)) == []
  {}

  lemma OverheadFound(f: seq<Octet>, m: nat, network: Network, encapsulation: Encapsulation, msgLen: nat, port: UInt16)
    requires msgLen <= BUFFER && |f| == BUFFER && m <= 22 && Laid(f, m, network, encapsulation, port)
    requires port == 319 || port == 320
    ensures Overhead(f, LengthType(network, encapsulation, msgLen), m)
         == if network == Ieee8023 && encapsulation == Pppoe then -1 else UpperLength(network, encapsulation)
  {
    hide At16;
  }

  lemma TypeFound(f: seq<Octet>, vlan: VlanTags, network: Network, encapsulation: Encapsulation, msgLen: nat)
    requires msgLen <= BUFFER && |f| == BUFFER
    requires Follows(f, 12, Tags(vlan) + Wide(LengthType(network, encapsulation, msgLen)))
    ensures Untagged(f) == (LengthType(network, encapsulation, msgLen), 4 * vlan)
  {
    hide Wide, Follows, LengthType;
    var t := LengthType(network, encapsulation, msgLen);
    FollowsParts(f, 12, Tags(vlan), Wide(t));
    WideAt(t);
    FollowsAt16(f, 12 + 4 * vlan, Wide(t), 0);
    NeverATag(network, encapsulation, msgLen);
    if vlan > 0 {
      FollowsAt16(f, 12, Tags(vlan), 0);
    }
  }

  lemma NeverATag(network: Network, encapsulation: Encapsulation, msgLen: nat)
    requires msgLen <= BUFFER
    ensures !IsTag(LengthType(network, encapsulation, msgLen))
  {}

  lemma FrameParts(a: Addresses, network: Network, encapsulation: Encapsulation, vlan: VlanTags, msg: seq<Octet>, messageType: Octet)
    returns (rest: seq<Octet>)
    requires ValidAddresses(a) && |msg| <= BUFFER
    ensures FrameOf(a, network, encapsulation, vlan, msg, messageType)
         == (a.macDa + a.macSa)
            + ((Tags(vlan) + Wide(LengthType(network, encapsulation, |msg|)))
               + (Upper(a, network, encapsulation, |msg|, UdpPort(messageType)) + (msg + rest)))
  {
    hide Tags, Wide, LengthType, Ether2Type, Shim, IpUdp, PadLength, FcsOctets, UdpPort;
    var t, e, port := LengthType(network, encapsulation, |msg|), Ether2Type(network, encapsulation), UdpPort(messageType);
    var body := Headers(a, t, e, vlan, |msg|, port) + msg;
    var pad := Zeros(PadLength(|body|, vlan, IsIpv6(t, e)));
    rest := pad + FcsOctets(body + pad);
    assert Assembled(a, msg, t, e, vlan, port) == body + rest;
  }

  /**
   * Whatever encapsulation and tags carry it, a message that fits is found at its place with its own length field and
   * type, in a receive buffer with anything behind the frame. Only PPPoE without IP is not recognised.
   */
  lemma ParseUndoesAssemble(a: Addresses, network: Network, encapsulation: Encapsulation, vlan: VlanTags, msg: seq<Octet>,
                            messageType: Octet, f: seq<Octet>)
    requires ValidAddresses(a) && 4 <= |msg| <= BUFFER && |f| == BUFFER
    requires Follows(f, 0, FrameOf(a, network, encapsulation, vlan, msg, messageType))
    ensures network == Ieee8023 && encapsulation == Pppoe <==> Parse(f) == NotPtp
    ensures Parse(f) != NotPtp ==>
      && Parse(f) == Ptp(14 + 4 * vlan + UpperLength(network, encapsulation), At16(msg, 2), msg[0] % 16)
      && Follows(f, Parse(f).head, msg)
  {
    hide Follows, At16, Tags, LengthType, Upper, Laid, Overhead, Untagged, FrameOf, UpperLength;
    var rest := FrameParts(a, network, encapsulation, vlan, msg, messageType);
    var port := UdpPort(messageType);
    var type2 := Tags(vlan) + Wide(LengthType(network, encapsulation, |msg|));
    var upper := Upper(a, network, encapsulation, |msg|, port);
    FollowsParts(f, 0, a.macDa + a.macSa, type2 + (upper + (msg + rest)));
    FollowsParts(f, 12, type2, upper + (msg + rest));
    FollowsParts(f, 14 + 4 * vlan, upper, msg + rest);
    UpperSize(a, network, encapsulation, |msg|, port);
    var head := 14 + 4 * vlan + |upper|;
    FollowsParts(f, head, msg, rest);
    TypeFound(f, vlan, network, encapsulation, |msg|);
    UpperIsLaid(f, 14 + 4 * vlan, a, network, encapsulation, |msg|, port);
    OverheadFound(f, 14 + 4 * vlan, network, encapsulation, |msg|, port);
    FollowsAt16(f, head, msg, 2);
    FollowsOctet(f, head, msg, 0);
    UpperLengthBound(network, encapsulation);
  }

  lemma UpperLengthBound(network: Network, encapsulation: Encapsulation)
    ensures 0 <= UpperLength(network, encapsulation) <= 56
  {}

  /** The receiver hands up the very message exactly when its length field is true. */
  lemma RoundTripIff(a: Addresses, network: Network, encapsulation: Encapsulation, vlan: VlanTags, msg: seq<Octet>,
                     messageType: Octet, f: seq<Octet>)
    requires ValidAddresses(a) && 4 <= |msg| <= BUFFER && |f| == BUFFER
    requires Follows(f, 0, FrameOf(a, network, encapsulation, vlan, msg, messageType))
    requires !(network == Ieee8023 && encapsulation == Pppoe)
    ensures Parse(f).Ptp? && Parse(f).head + |msg| <= BUFFER
    ensures (Parse(f).length == |msg| && f[Parse(f).head..Parse(f).head + |msg|] == msg) <==> At16(msg, 2) == |msg|
  {
    hide Parse, At16, FrameOf;
    ParseUndoesAssemble(a, network, encapsulation, vlan, msg, messageType, f);
  }

  // ---- What the parser takes for a message

  /**
   * The tags skipped before the type field. A customer tag is looked behind for another one; after a service tag a
   * second tag is taken for granted, so a frame with a service tag alone is read four octets too late.
   */
  lemma TagsSkipped(f: seq<Octet>)
    requires |f| == BUFFER
    ensures var (t, n) := Untagged(f);
      var tags: set<int> := {0x8100, 0x88a8, 0x9100, 0x9200, 0x9300};
      && t == At16(f, 12 + n) && (n == 0 || n == 4 || n == 8)
      && (n == 0 <==> At16(f, 12) !in tags)
      && (n == 4 <==> At16(f, 12) == 0x8100 && At16(f, 16) !in tags)
  {
    hide At16;
  }

  /** A type field that announces these layers. */
  predicate TypeFits(t: UInt16, network: Network, encapsulation: Encapsulation) {
    if encapsulation == Snap then t <= 1500 else t == LengthType(network, encapsulation, 0)
  }

  /** A frame that carries a PTP message in these layers. */
  predicate Carries(f: seq<Octet>, network: Network, encapsulation: Encapsulation, port: UInt16)
    requires |f| == BUFFER
  {
    var (t, tags) := Untagged(f);
    && TypeFits(t, network, encapsulation) && Laid(f, 14 + tags, network, encapsulation, port)
    && (port == 319 || port == 320) && !(network == Ieee8023 && encapsulation == Pppoe)
  }

  /** What is carried in any layers is found behind them. */
  lemma CarriedIsFound(f: seq<Octet>, network: Network, encapsulation: Encapsulation, port: UInt16)
    requires |f| == BUFFER && Carries(f, network, encapsulation, port)
    ensures var head := 14 + Untagged(f).1 + UpperLength(network, encapsulation);
      head + 3 < BUFFER && Parse(f) == Ptp(head, At16(f, head + 2), f[head] % 16)
  {
    hide At16, Untagged;
    TagsSkipped(f);
  }

  /** And nothing else is taken for a message. */
  lemma FoundIsCarried(f: seq<Octet>) returns (network: Network, encapsulation: Encapsulation, port: UInt16)
    requires |f| == BUFFER && Parse(f).Ptp?
    ensures Carries(f, network, encapsulation, port)
  {
    hide At16, Untagged;
    TagsSkipped(f);
    var (t, tags) := Untagged(f);
    var m := 14 + tags;
    encapsulation := if t == 0x8864 then Pppoe else if t <= 1500 then Snap else Ether2;
    var shim := if encapsulation == Ether2 then 0 else 8;
    var overhead := Overhead(f, t, m);
    network := if overhead - shim == 28 then UdpIpv4 else if overhead - shim == 48 then UdpIpv6 else Ieee8023;
    port := if network == UdpIpv4 then At16(f, m + shim + 22) else if network == UdpIpv6 then At16(f, m + shim + 42) else 319;
  }

  /** Frames reach 64 octets without their tags, and grow with the message from there. */
  lemma FrameLength(a: Addresses, network: Network, encapsulation: Encapsulation, vlan: VlanTags, msg: seq<Octet>, messageType: Octet)
    requires ValidAddresses(a) && |msg| <= BUFFER
    ensures var n := 18 + UpperLength(network, encapsulation) + |msg|;
      |FrameOf(a, network, encapsulation, vlan, msg, messageType)|
      == 4 * vlan + if network == UdpIpv6 then n + 2 else if n < 64 then 64 else n
  {
    hide Shim, IpUdp, Wide, Tags, FcsOctets, LengthType, Ether2Type, UdpPort, UpperLength, IsIpv6;
    var t, e, port := LengthType(network, encapsulation, |msg|), Ether2Type(network, encapsulation), UdpPort(messageType);
    UpperSize(a, network, encapsulation, |msg|, port);
    IsIpv6Iff(network, encapsulation, |msg|);
    var body := Headers(a, t, e, vlan, |msg|, port) + msg;
    assert |body| == 14 + 4 * vlan + |Upper(a, network, encapsulation, |msg|, port)| + |msg|;
    FcsSize(Payload(a, msg, t, e, vlan, port));
  }

  lemma IsIpv6Iff(network: Network, encapsulation: Encapsulation, msgLen: nat)
    requires msgLen <= BUFFER
    ensures IsIpv6(LengthType(network, encapsulation, msgLen), Ether2Type(network, encapsulation)) <==> network == UdpIpv6
  {}

  /** Every PTP message up to 172 octets fits the frame buffer whatever carries it; 173 do not under PPPoE, IPv6 and two tags. */
  lemma MessagesFit(a: Addresses, network: Network, encapsulation: Encapsulation, vlan: VlanTags, msg: seq<Octet>, messageType: Octet)
    requires ValidAddresses(a) && |msg| <= BUFFER
    ensures |msg| <= 172 ==> |FrameOf(a, network, encapsulation, vlan, msg, messageType)| <= BUFFER
    ensures |msg| > 172 && network == UdpIpv6 && encapsulation == Pppoe && vlan == 2 ==>
      |FrameOf(a, network, encapsulation, vlan, msg, messageType)| > BUFFER
  {
    hide FrameOf;
    FrameLength(a, network, encapsulation, vlan, msg, messageType);
  }

  // ---- Addresses and constant octets

  /** The octets from m on are s. */
  predicate StandsAt(f: seq<Octet>, m: nat, s: seq<Octet>) { m + |s| <= |f| && f[m..m + |s|] == s }

  lemma FollowsStands(f: seq<Octet>, m: nat, s: seq<Octet>)
    requires Follows(f, m, s)
    ensures StandsAt(f, m, s)
  {}

  lemma Ipv4Addressed(f: seq<Octet>, m: nat, a: Addresses, msgLen: nat, u: seq<Octet>)
    requires ValidAddresses(a) && msgLen <= BUFFER && |u| == 8 && Follows(f, m, Ipv4Header(a, msgLen) + u)
    ensures StandsAt(f, m + 12, a.ipv4Sa) && StandsAt(f, m + 16, a.ipv4Da) && Follows(f, m + 20, u)
    ensures m + 12 <= |f| && f[m] == 0x45 && f[m + 8] == 0xff && f[m + 10] == f[m + 11] == 0
  {
    hide Wide, Follows, StandsAt;
    var fixed := [0x45, 0x00] + Wide(28 + msgLen) + [0x00, 0x00, 0x00, 0x00, 0xff, 17, 0x00, 0x00];
    assert Ipv4Header(a, msgLen) == fixed + (a.ipv4Sa + a.ipv4Da);
    FollowsParts(f, m, Ipv4Header(a, msgLen), u);
    FollowsParts(f, m, fixed, a.ipv4Sa + a.ipv4Da);
    FollowsParts(f, m + 12, a.ipv4Sa, a.ipv4Da);
    FollowsStands(f, m + 12, a.ipv4Sa);
    FollowsStands(f, m + 16, a.ipv4Da);
    FollowsOctet(f, m, fixed, 0);
    FollowsOctet(f, m, fixed, 8);
    FollowsOctet(f, m, fixed, 10);
    FollowsOctet(f, m, fixed, 11);
    FollowsBound(f, m, fixed);
  }

  lemma FollowsBound(f: seq<Octet>, m: nat, s: seq<Octet>)
    requires Follows(f, m, s)
    ensures m + |s| <= |f|
  {}

  lemma Ipv6Addressed(f: seq<Octet>, m: nat, a: Addresses, msgLen: nat, u: seq<Octet>)
    requires ValidAddresses(a) && msgLen <= BUFFER && |u| == 8 && Follows(f, m, Ipv6Header(a, msgLen) + u)
    ensures StandsAt(f, m + 8, a.ipv6Sa) && StandsAt(f, m + 24, a.ipv6Da) && Follows(f, m + 40, u)
    ensures m + 8 <= |f| && f[m] == 0x60 && f[m + 7] == 0xff
  {
    hide Wide, Follows, StandsAt;
    var fixed := [0x60, 0x00, 0x00, 0x00] + Wide(8 + msgLen + 2) + [17, 0xff];
    assert Ipv6Header(a, msgLen) == fixed + (a.ipv6Sa + a.ipv6Da);
    FollowsParts(f, m, Ipv6Header(a, msgLen), u);
    FollowsParts(f, m, fixed, a.ipv6Sa + a.ipv6Da);
    FollowsParts(f, m + 8, a.ipv6Sa, a.ipv6Da);
    FollowsStands(f, m + 8, a.ipv6Sa);
    FollowsStands(f, m + 24, a.ipv6Da);
    FollowsOctet(f, m, fixed, 0);
    FollowsOctet(f, m, fixed, 7);
    FollowsBound(f, m, fixed);
  }

  /** The UDP header names no source port, and its checksum is a constant. */
  lemma UdpConstants(f: seq<Octet>, m: nat, port: UInt16, udpLen: UInt16)
    requires Follows(f, m, UdpHeader(port, udpLen))
    ensures m + 8 <= |f| && f[m] == f[m + 1] == 0 && At16(f, m + 2) == port && f[m + 6] == 0xab && f[m + 7] == 0xcd
  {
    hide Wide;
    var u := UdpHeader(port, udpLen);
    UdpAt(port, udpLen);
    FollowsAt16(f, m, u, 2);
    assert u[0] == u[1] == 0 && u[6] == 0xab && u[7] == 0xcd;
  }

  /** Where the IP header starts. */
  function UpperAt(encapsulation: Encapsulation, vlan: VlanTags): nat {
    14 + 4 * vlan + if encapsulation == Ether2 then 0 else 8
  }

  /**
   * Every frame goes from the source to the destination addresses of its layers, in their places. No checksum is ever
   * computed: that of the IPv4 header is zero and that of UDP a constant.
   */
  lemma FrameIsAddressed(f: seq<Octet>, a: Addresses, network: Network, encapsulation: Encapsulation, vlan: VlanTags,
                         msg: seq<Octet>, messageType: Octet)
    requires ValidAddresses(a) && |msg| <= BUFFER
    requires Follows(f, 0, FrameOf(a, network, encapsulation, vlan, msg, messageType))
    ensures StandsAt(f, 0, a.macDa) && StandsAt(f, 6, a.macSa)
    ensures var m := UpperAt(encapsulation, vlan);
      match network {
        case UdpIpv4 =>
          && m + 28 <= |f| && At16(f, m + 22) == (if messageType < 8 then 319 else 320) && StandsAt(f, m + 12, a.ipv4Sa) && StandsAt(f, m + 16, a.ipv4Da)
          && f[m] == 0x45 && f[m + 8] == 0xff && f[m + 10] == f[m + 11] == 0 && f[m + 26] == 0xab && f[m + 27] == 0xcd
        case UdpIpv6 =>
          && m + 48 <= |f| && At16(f, m + 42) == (if messageType < 8 then 319 else 320) && StandsAt(f, m + 8, a.ipv6Sa) && StandsAt(f, m + 24, a.ipv6Da)
          && f[m] == 0x60 && f[m + 7] == 0xff && f[m + 46] == 0xab && f[m + 47] == 0xcd
        case Ieee8023 => true
      }
  {
    hide Follows, StandsAt, Tags, Wide, LengthType, Ether2Type, Shim, UdpHeader, Ipv4Header, Ipv6Header, FrameOf;
    hide IsIpv4, IsIpv6, At16;
    var n := |msg|;
    var t, e, port := LengthType(network, encapsulation, n), Ether2Type(network, encapsulation), UdpPort(messageType);
    var rest := FrameParts(a, network, encapsulation, vlan, msg, messageType);
    var type2, upper := Tags(vlan) + Wide(t), Upper(a, network, encapsulation, n, port);
    FollowsParts(f, 0, a.macDa + a.macSa, type2 + (upper + (msg + rest)));
    FollowsParts(f, 0, a.macDa, a.macSa);
    FollowsStands(f, 0, a.macDa);
    FollowsStands(f, 6, a.macSa);
    FollowsParts(f, 12, type2, upper + (msg + rest));
    FollowsParts(f, 14 + 4 * vlan, upper, msg + rest);
    FollowsParts(f, 14 + 4 * vlan, Shim(t, e), IpUdp(a, t, e, n, port));
    ShimLength(network, encapsulation, n);
    IsIpv4Iff(network, encapsulation, n);
    IsIpv6Iff(network, encapsulation, n);
    var m := UpperAt(encapsulation, vlan);
    match network {
      case UdpIpv4 =>
        Ipv4Addressed(f, m, a, n, UdpHeader(port, 8 + n));
        UdpConstants(f, m + 20, port, 8 + n);
      case UdpIpv6 =>
        Ipv6Addressed(f, m, a, n, UdpHeader(port, 8 + n + 2));
        UdpConstants(f, m + 40, port, 8 + n + 2);
      case Ieee8023 =>
    }
  }

  lemma ShimLength(network: Network, encapsulation: Encapsulation, msgLen: nat)
    requires msgLen <= BUFFER
    ensures |Shim(LengthType(network, encapsulation, msgLen), Ether2Type(network, encapsulation))|
         == if encapsulation == Ether2 then 0 else 8
  {
    if encapsulation == Ether2 {
      NoShim(network, msgLen);
    } else {
      ShimAt(network, encapsulation, msgLen);
    }
  }

  /** Tags name VLAN 2, the outer of two as a service tag; a SNAP header has control octet 0, a PPPoE header six zeros. */
  lemma TagsAndShim(vlan: VlanTags, network: Network, encapsulation: Encapsulation, msgLen: nat)
    requires msgLen <= BUFFER
    ensures vlan == 1 ==> At16(Tags(vlan), 0) == 0x8100 && At16(Tags(vlan), 2) == 2
    ensures vlan == 2 ==> At16(Tags(vlan), 0) == 0x88a8 && At16(Tags(vlan), 2) == At16(Tags(vlan), 6) == 2
                          && At16(Tags(vlan), 4) == 0x8100
    ensures var s := Shim(LengthType(network, encapsulation, msgLen), Ether2Type(network, encapsulation));
      match encapsulation {
        case Ether2 => s == []
        case Snap =>
          && |s| == 8 && s[..6] == [0xaa, 0xaa, 0, 0, 0, 0]
          && At16(s, 6) == (match network { case UdpIpv4 => 0x0800 case UdpIpv6 => 0x86dd case Ieee8023 => 0x88f7 })
        case Pppoe =>
          && |s| == 8 && s[..6] == [0, 0, 0, 0, 0, 0]
          && At16(s, 6) == (match network { case UdpIpv4 => 0x0021 case UdpIpv6 => 0x0057 case Ieee8023 => 0 })
      }
  {
    hide Wide;
    WideAt(Ether2Type(network, encapsulation));
  }

  /** A length field of 1500 is the one that gets a SNAP header and no IP header behind it, whatever it announces. */
  lemma NoIpBehindLengthOf1500(a: Addresses, length: UInt16, ether2Type: UInt16, msgLen: nat, port: UInt16)
    requires msgLen <= BUFFER && length <= 1500
    ensures var s := Shim(length, ether2Type) + IpUdp(a, length, ether2Type, msgLen, port);
      && |Shim(length, ether2Type)| == 8
      && (ether2Type == 0x0800 || ether2Type == 0x86dd ==> (|s| == 8 <==> length == 1500))
      && (ether2Type != 0x0800 && ether2Type != 0x86dd ==> |s| == 8)
  {
    hide Wide, UdpHeader;
  }

  /** The length fields of IP and UDP count from their header to the end of the message, IPv6 with its two pad octets. */
  lemma LengthFieldsAreTrue(a: Addresses, network: Network, encapsulation: Encapsulation, msgLen: nat, port: UInt16)
    requires ValidAddresses(a) && msgLen <= BUFFER
    ensures var s := IpUdp(a, LengthType(network, encapsulation, msgLen), Ether2Type(network, encapsulation), msgLen, port);
      match network {
        case UdpIpv4 => |s| == 28 && At16(s, 2) == 28 + msgLen && At16(s, 24) == 8 + msgLen
        case UdpIpv6 => |s| == 48 && At16(s, 4) == At16(s, 44) == 8 + msgLen + 2
        case Ieee8023 => s == []
      }
  {
    hide Wide, At16, LengthType, Ether2Type;
    IsIpv6Iff(network, encapsulation, msgLen);
    IsIpv4Iff(network, encapsulation, msgLen);
    match network {
      case UdpIpv4 =>
        var h, u := Ipv4Header(a, msgLen), UdpHeader(port, 8 + msgLen);
        assert Follows(h + u, 2, Wide(28 + msgLen)) && Follows(h + u, 24, Wide(8 + msgLen));
        FollowsWide(h + u, 2, 28 + msgLen);
        FollowsWide(h + u, 24, 8 + msgLen);
      case UdpIpv6 =>
        var h, u := Ipv6Header(a, msgLen), UdpHeader(port, 8 + msgLen + 2);
        assert Follows(h + u, 4, Wide(8 + msgLen + 2)) && Follows(h + u, 44, Wide(8 + msgLen + 2));
        FollowsWide(h + u, 4, 8 + msgLen + 2);
        FollowsWide(h + u, 44, 8 + msgLen + 2);
      case Ieee8023 =>
    }
  }

  lemma IsIpv4Iff(network: Network, encapsulation: Encapsulation, msgLen: nat)
    requires msgLen <= BUFFER
    ensures IsIpv4(LengthType(network, encapsulation, msgLen), Ether2Type(network, encapsulation)) <==> network == UdpIpv4
  {}

  /**
   * The length field of a SNAP frame counts addresses, the field itself and the check sequence too: 18 octets more
   * than follow it up to the end of the message, or 20 with the pad octets of IPv6.
   */
  lemma SnapLengthCountsWholeFrame(a: Addresses, network: Network, msgLen: nat, port: UInt16)
    requires ValidAddresses(a) && msgLen <= BUFFER
    ensures LengthType(network, Snap, msgLen)
         == |Upper(a, network, Snap, msgLen, port)| + msgLen + if network == UdpIpv6 then 20 else 18
  {
    hide Upper;
    UpperSize(a, network, Snap, msgLen, port);
  }

  // ---- The frame buffers

  /** Four octets of a check sequence, from its value. */
  lemma FcsOctetsAt(frame: seq<Octet>)
    ensures var crc := Fcs(frame);
      FcsOctets(frame) == [crc % 256, crc / 0x100 % 256, crc / 0x1_0000 % 256, crc / 0x100_0000 % 256]
  {
    hide OctetFold, FromBits;
    var f := Inverted(Reversed(OctetFold(ONES, frame)));
    WordValue(f);
    FcsOctetsFold(frame);
    assert Pow2(8) == 256;
    FourOctets(FromBits(f[..8]), FromBits(f[8..16]), FromBits(f[16..24]), FromBits(f[24..]));
  }

  lemma FcsOctetsFold(frame: seq<Octet>)
    ensures var f := Inverted(Reversed(OctetFold(ONES, frame)));
      |f| == 32 && FcsOctets(frame) == [FromBits(f[..8]), FromBits(f[8..16]), FromBits(f[16..24]), FromBits(f[24..])]
  {
    hide OctetFold, FromBits;
  }

  lemma FourOctets(a: nat, b: nat, c: nat, d: nat)
    requires a < 256 && b < 256 && c < 256 && d < 256
    ensures var n := a + 0x100 * b + 0x1_0000 * c + 0x100_0000 * d;
      n % 256 == a && n / 0x100 % 256 == b && n / 0x1_0000 % 256 == c && n / 0x100_0000 % 256 == d
  {
    var n := a + 0x100 * b + 0x1_0000 * c + 0x100_0000 * d;
    assert n / 0x100 == b + 0x100 * c + 0x1_0000 * d;
    assert n / 0x1_0000 == c + 0x100 * d;
    assert n / 0x100_0000 == d;
  }

  class Transport {
    const addresses: Addresses
    const network: Network
    const encapsulation: Encapsulation
    const vlanTag: VlanTags
    const frameMem: array<Octet>
    const rcvdFrame: array<Octet>

    constructor (a: Addresses, n: Network, e: Encapsulation, v: VlanTags)
      ensures addresses == a && network == n && encapsulation == e && vlanTag == v
      ensures frameMem.Length == rcvdFrame.Length == BUFFER && fresh(frameMem) && fresh(rcvdFrame) && frameMem != rcvdFrame
    {
      addresses, network, encapsulation, vlanTag := a, n, e, v;
      frameMem := new Octet[BUFFER](i => 0);
      rcvdFrame := new Octet[BUFFER](i => 0);
    }

    /** Writes octets behind the first len and returns the new length. */
    method Put(len: nat, octets: seq<Octet>) returns (next: nat)
      requires len + |octets| <= frameMem.Length
      modifies frameMem
      ensures next == len + |octets| && frameMem[..next] == old(frameMem[..len]) + octets
    {
      next := len;
      for i := 0 to |octets|
        invariant next == len + i
        invariant frameMem[..next] == old(frameMem[..len]) + octets[..i]
      {
        frameMem[next] := octets[i];
        next := next + 1;
        assert frameMem[..next] == frameMem[..next - 1] + [octets[i]];
      }
    }

    method PutTags(start: nat, vlan: VlanTags) returns (len: nat)
      requires frameMem.Length == BUFFER && start <= 12
      modifies frameMem
      ensures len == start + 4 * vlan && frameMem[..len] == old(frameMem[..start]) + Tags(vlan)
    {
      len := start;
      if vlan == 2 {
        len := Put(len, [0x88, 0xa8, 0x00, 0x02]);
      }
      if vlan == 1 || vlan == 2 {
        len := Put(len, [0x81, 0x00, 0x00, 0x02]);
      }
    }

    method PutShim(start: nat, lengthType: UInt16, ether2Type: UInt16) returns (len: nat)
      requires frameMem.Length == BUFFER && start <= 22
      modifies frameMem
      ensures len <= start + 8 && frameMem[..len] == old(frameMem[..start]) + Shim(lengthType, ether2Type)
    {
      hide Wide;
      len := start;
      if lengthType <= 1500 {
        len := Put(len, [0xaa, 0xaa, 0x00, 0x00, 0x00, 0x00]);
        len := Put(len, Wide(ether2Type));
      } else if lengthType == 0x8864 {
        len := Put(len, [0x00, 0x00, 0x00, 0x00, 0x00, 0x00]);
        len := Put(len, Wide(ether2Type));
      }
    }

    method PutLinkHeader(lengthType: UInt16, ether2Type: UInt16, vlan: VlanTags) returns (len: nat)
      requires ValidAddresses(addresses) && frameMem.Length == BUFFER
      modifies frameMem
      ensures len <= 30 && frameMem[..len]
           == addresses.macDa + addresses.macSa + Tags(vlan) + Wide(lengthType) + Shim(lengthType, ether2Type)
    {
      hide Wide, Tags, Shim;
      len := Put(0, addresses.macDa);
      len := Put(len, addresses.macSa);
      len := PutTags(len, vlan);
      len := Put(len, Wide(lengthType));
      len := PutShim(len, lengthType, ether2Type);
    }

    method PutIpUdp(start: nat, msgLen: nat, lengthType: UInt16, ether2Type: UInt16, udpDport: UInt16) returns (len: nat)
      requires ValidAddresses(addresses) && frameMem.Length == BUFFER && start <= 30 && msgLen <= BUFFER
      modifies frameMem
      ensures len <= 78
      ensures frameMem[..len] == old(frameMem[..start]) + IpUdp(addresses, lengthType, ether2Type, msgLen, udpDport)
    {
      hide Wide;
      len := start;
      var isIpv4, isIpv6 := IsIpv4(lengthType, ether2Type), IsIpv6(lengthType, ether2Type);
      if isIpv4 {
        len := PutIpv4(len, msgLen);
      }
      if isIpv6 {
        len := PutIpv6(len, msgLen);
      }
      if isIpv4 || isIpv6 {
        var udpLen := 8 + msgLen;
        if isIpv6 {
          udpLen := udpLen + 2;
        }
        len := Put(len, UdpHeader(udpDport, udpLen));
      }
    }

    method PutIpv4(start: nat, msgLen: nat) returns (len: nat)
      requires ValidAddresses(addresses) && frameMem.Length == BUFFER && start <= 30 && msgLen <= BUFFER
      modifies frameMem
      ensures len == start + 20 && frameMem[..len] == old(frameMem[..start]) + Ipv4Header(addresses, msgLen)
    {
      hide Wide;
      var totalLen := 20 + 8 + msgLen;
      len := Put(start, [0x45, 0x00]);
      len := Put(len, Wide(totalLen));
      len := Put(len, [0x00, 0x00, 0x00, 0x00, 0xff, 17, 0x00, 0x00]);
      len := Put(len, addresses.ipv4Sa);
      len := Put(len, addresses.ipv4Da);
    }

    method PutIpv6(start: nat, msgLen: nat) returns (len: nat)
      requires ValidAddresses(addresses) && frameMem.Length == BUFFER && start <= 30 && msgLen <= BUFFER
      modifies frameMem
      ensures len == start + 40 && frameMem[..len] == old(frameMem[..start]) + Ipv6Header(addresses, msgLen)
    {
      hide Wide;
      var payloadLen := 8 + msgLen + 2;
      len := Put(start, [0x60, 0x00, 0x00, 0x00]);
      len := Put(len, Wide(payloadLen));
      len := Put(len, [17, 0xff]);
      len := Put(len, addresses.ipv6Sa);
      len := Put(len, addresses.ipv6Da);
    }

    method PutPadding(start: nat, vlan: VlanTags, ipv6: bool) returns (len: nat)
      requires frameMem.Length == BUFFER && start + PadLength(start, vlan, ipv6) <= BUFFER
      modifies frameMem
      ensures len == start + PadLength(start, vlan, ipv6)
      ensures frameMem[..len] == old(frameMem[..start]) + Zeros(PadLength(start, vlan, ipv6))
    {
      var lenSubVlan := if vlan == 2 then start - 8 else if vlan == 1 then start - 4 else start;
      var padLen := 64 - (lenSubVlan + 4);
      if ipv6 {
        padLen := 2;
      }
      len := start;
      if padLen > 0 {
        len := Put(len, Zeros(padLen));
      }
    }

    method AssembleFrame(msg: seq<Octet>, lengthType: UInt16, ether2Type: UInt16, vlan: VlanTags, udpDport: UInt16) returns (len: nat)
      requires ValidAddresses(addresses) && frameMem.Length == BUFFER && |msg| <= BUFFER
      requires |Assembled(addresses, msg, lengthType, ether2Type, vlan, udpDport)| <= BUFFER
      modifies frameMem
      ensures len <= BUFFER && frameMem[..len] == Assembled(addresses, msg, lengthType, ether2Type, vlan, udpDport)
    {
      hide Wide, Shim, Tags, IpUdp, Fcs, FcsOctets, PadLength, IsIpv6, IsIpv4;
      ghost var whole := Assembled(addresses, msg, lengthType, ether2Type, vlan, udpDport);
      FcsSize(Payload(addresses, msg, lengthType, ether2Type, vlan, udpDport));
      len := PutLinkHeader(lengthType, ether2Type, vlan);
      len := PutIpUdp(len, |msg|, lengthType, ether2Type, udpDport);
      assert frameMem[..len] == Headers(addresses, lengthType, ether2Type, vlan, |msg|, udpDport);
      len := Put(len, msg);
      len := PutPadding(len, vlan, IsIpv6(lengthType, ether2Type));
      ghost var payload := frameMem[..len];
      assert payload == Payload(addresses, msg, lengthType, ether2Type, vlan, udpDport);
      var frameCrc := CalculateCrc(len, frameMem);
      FcsOctetsAt(payload);
      len := Put(len, [frameCrc % 256, frameCrc / 0x100 % 256, frameCrc / 0x1_0000 % 256, frameCrc / 0x100_0000 % 256]);
    }

    method Transmit(msg: seq<Octet>, messageType: Octet) returns (frameLen: nat)
      requires ValidAddresses(addresses) && frameMem.Length == BUFFER && |msg| <= BUFFER
      requires |FrameOf(addresses, network, encapsulation, vlanTag, msg, messageType)| <= BUFFER
      modifies frameMem
      ensures frameLen <= BUFFER
      ensures frameMem[..frameLen] == FrameOf(addresses, network, encapsulation, vlanTag, msg, messageType)
    {
      hide Assembled;
      var lengthType: UInt16, ether2Type: UInt16, udpDport: UInt16 := 0, 0, 0;
      if encapsulation == Ether2 {
        lengthType := match network { case UdpIpv4 => 0x0800 case UdpIpv6 => 0x86dd case Ieee8023 => 0x88f7 };
      } else if encapsulation == Snap {
        lengthType := 12 + 2 + 8 + 4;
        if network == UdpIpv4 {
          lengthType, ether2Type := lengthType + 20 + 8 + |msg|, 0x0800;
        } else if network == UdpIpv6 {
          lengthType, ether2Type := lengthType + 40 + 8 + |msg| + 2, 0x86dd;
        } else {
          lengthType, ether2Type := lengthType + |msg|, 0x88f7;
        }
      } else {
        lengthType := 0x8864;
        if network == UdpIpv4 {
          ether2Type := 0x0021;
        } else if network == UdpIpv6 {
          ether2Type := 0x0057;
        }
      }
      if messageType < 8 {
        udpDport := 319;
      } else {
        udpDport := 320;
      }
      frameLen := AssembleFrame(msg, lengthType, ether2Type, vlanTag, udpDport);
    }

    method Read16(m: nat) returns (x: UInt16)
      requires rcvdFrame.Length == BUFFER && m + 1 < BUFFER
      ensures x == At16(rcvdFrame[..], m)
    {
      var high: int := rcvdFrame[m];
      x := high * 256 + rcvdFrame[m + 1];
    }

    method IsPtpPort(protocolAt: nat, portAt: nat) returns (ptp: bool)
      requires rcvdFrame.Length == BUFFER && protocolAt < BUFFER && portAt + 1 < BUFFER
      ensures ptp == IsPtpUdp(rcvdFrame[..], protocolAt, portAt)
    {
      hide At16;
      var destinationUdpPort := Read16(portAt);
      ptp := rcvdFrame[protocolAt] == 17 && (destinationUdpPort == 319 || destinationUdpPort == 320);
    }

    method SkipTags() returns (ethType: UInt16, overhead: nat)
      requires rcvdFrame.Length == BUFFER
      ensures (ethType, overhead) == Untagged(rcvdFrame[..])
    {
      hide At16;
      overhead := 0;
      ethType := Read16(12);
      if ethType == 0x8100 {
        ethType := Read16(16);
        overhead := 4;
      }
      if ethType == 0x88a8 || ethType == 0x9100 || ethType == 0x9200 || ethType == 0x9300 || ethType == 0x8100 {
        ethType := Read16(20);
        overhead := 8;
      }
    }

    /** The upper layers behind a PPPoE or SNAP header that starts at m. */
    method SkipShim(m: nat, ipv4: UInt16, ipv6: UInt16) returns (isPtp: bool, extra: nat)
      requires rcvdFrame.Length == BUFFER && m <= 22 && ipv4 != ipv6
      ensures var f := rcvdFrame[..];
        if At16(f, m + 6) == ipv4 then isPtp == IsPtpUdp(f, m + 17, m + 30) && extra == 36
        else if At16(f, m + 6) == ipv6 then isPtp == IsPtpUdp(f, m + 14, m + 50) && extra == 56
        else !isPtp
    {
      hide At16, IsPtpUdp;
      isPtp, extra := false, 0;
      var id := Read16(m + 6);
      if id == ipv4 {
        isPtp := IsPtpPort(m + 17, m + 30);
        extra := 36;
      } else if id == ipv6 {
        isPtp := IsPtpPort(m + 14, m + 50);
        extra := 56;
      }
    }

    method SkipUpper(ethType: UInt16, m: nat) returns (isPtp: bool, extra: nat)
      requires rcvdFrame.Length == BUFFER && m <= 22
      ensures isPtp == (Overhead(rcvdFrame[..], ethType, m) >= 0)
      ensures isPtp ==> extra == Overhead(rcvdFrame[..], ethType, m)
    {
      hide At16, IsPtpUdp;
      isPtp, extra := false, 0;
      if ethType == 0x88f7 {
        isPtp := true;
      } else if ethType == 0x0800 {
        isPtp := IsPtpPort(m + 9, m + 22);
        extra := 28;
      } else if ethType == 0x86dd {
        isPtp := IsPtpPort(m + 6, m + 42);
        extra := 48;
      } else if ethType == 0x8864 {
        isPtp, extra := SkipShim(m, 0x0021, 0x0057);
      } else if ethType <= 1500 && rcvdFrame[m] == 0xaa && rcvdFrame[m + 1] == 0xaa {
        var snapType := Read16(m + 6);
        if snapType == 0x88f7 {
          isPtp, extra := true, 8;
        } else {
          isPtp, extra := SkipShim(m, 0x0800, 0x86dd);
        }
      }
    }

    method ParseFrame() returns (parsed: Parsed)
      requires rcvdFrame.Length == BUFFER
      ensures parsed == Parse(rcvdFrame[..])
    {
      hide At16, Overhead, Untagged;
      var ethType, tags := SkipTags();
      UntaggedBound(rcvdFrame[..]);
      var isPtp, extra := SkipUpper(ethType, 14 + tags);
      if !isPtp {
        return NotPtp;
      }
      var head := 14 + tags + extra;
      var messageLength := Read16(head + 2);
      parsed := Ptp(head, messageLength, rcvdFrame[head] % 16);
    }
  }

  lemma UntaggedBound(f: seq<Octet>)
    requires |f| == BUFFER
    ensures Untagged(f).1 <= 8
  {}

  lemma FcsSize(frame: seq<Octet>)
    ensures |FcsOctets(frame)| == 4
  {}
}
