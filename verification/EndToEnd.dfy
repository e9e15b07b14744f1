/** From one clock's message buffer to another's, through frame, transmit buffer, lanes, receive buffer and parser. */
module EndToEnd {
  import opened Bits
  import opened DataSets
  import opened Layout
  import opened Messages
  import Bmc
  import Port
  import PortRuns
  import Crc32
  import Frame
  import Xgmii

  /** What the receiving software sees: the octets read from the bus buffer, then what its own buffer held before. */
  function ReadBack(bus: seq<Octet>, n: nat, before: seq<Octet>): (f: seq<Octet>)
    requires n <= |before| == Frame.BUFFER && |bus| == Xgmii.DEPTH
    ensures |f| == Frame.BUFFER
  {
    bus[..n] + before[n..]
  }

  lemma ReadBackFollows(bus: seq<Octet>, before: seq<Octet>, frame: seq<Octet>)
    requires |frame| <= |before| == Frame.BUFFER && |bus| == Xgmii.DEPTH && bus[..|frame|] == frame
    ensures Follows(ReadBack(bus, |frame|, before), 0, frame)
  {}

  /** The buffers on the way: transmit buffer, receiver, bus buffer and the software's receive buffer. */
  datatype Way = Way(r: Xgmii.TxRegs, wrBuf: seq<Octet>, x: Xgmii.Rx, bus: seq<Octet>, before: seq<Octet>)

  /** An idle transmitter loaded with a frame, and anything in the other buffers. */
  predicate Loaded(w: Way, frame: seq<Octet>) {
    && |frame| <= |w.wrBuf| == |w.bus| == Xgmii.DEPTH && w.wrBuf[..|frame|] == frame
    && w.r.cstate == Xgmii.TxIdle && w.r.ethCount < Xgmii.DEPTH && Xgmii.ValidRx(w.x) && |w.before| == Frame.BUFFER
  }

  /** The receiver after the software has written the length register, and what that sets off. */
  function Arrived(w: Way, n: nat): (y: Xgmii.Rx)
    requires |w.wrBuf| == Xgmii.DEPTH && w.r.ethCount < Xgmii.DEPTH && Xgmii.ValidRx(w.x)
    ensures Xgmii.ValidRx(y)
  {
    Xgmii.Receive(w.x, Xgmii.Ordered(w.r, w.wrBuf, Xgmii.LengthWord(n)))
  }

  /** What the software then reads through the bus buffer. */
  function Seen(w: Way, y: Xgmii.Rx): (f: seq<Octet>)
    requires |w.bus| == Xgmii.DEPTH && |w.before| == Frame.BUFFER && Xgmii.ValidRx(y) && y.frmLen <= Frame.BUFFER
    ensures |f| == Frame.BUFFER
  {
    ReadBack(Xgmii.Repacked(y.frame, y.frmLen, w.bus), y.frmLen, w.before)
  }

  /**
   * A message of the clock at one end, in any encapsulation that carries PTP, is found unchanged at the other end,
   * whatever the buffers held before and whatever the receiver was doing; and its check sequence is good.
   */
  lemma SendableCrossesLink(p: seq<Octet>, n: UInt16, messageType: Octet, a: Frame.Addresses, network: Frame.Network,
                            encapsulation: Frame.Encapsulation, vlan: Frame.VlanTags, frame: seq<Octet>, w: Way)
    requires Sendable(p, n, messageType) && Frame.ValidAddresses(a)
    requires !(network == Frame.Ieee8023 && encapsulation == Frame.Pppoe)
    requires frame == Frame.FrameOf(a, network, encapsulation, vlan, p[..n], messageType) && Loaded(w, frame)
    ensures var y := Arrived(w, |frame|);
      && y.wrFin && y.frmLen == |frame| <= Frame.BUFFER && Crc32.Fcs(y.frame[8..8 + y.frmLen]) == 0x2144_DF1C
      && Delivered(Seen(w, y), p, n, messageType)
  {
    hide Frame.FrameOf, Arrived, Delivered, Follows, ReadBack, Crc32.Fcs, Frame.ValidAddresses;
    FrameSizes(a, network, encapsulation, vlan, p[..n], messageType);
    LinkCarriesFrame(w, frame);
    FrameResidue(a, network, encapsulation, vlan, p[..n], messageType);
    MessageSurvivesFrame(p, n, messageType, a, network, encapsulation, vlan, Seen(w, Arrived(w, |frame|)));
  }

  lemma LinkCarriesFrame(w: Way, frame: seq<Octet>)
    requires Loaded(w, frame) && 8 <= |frame| <= Frame.BUFFER
    ensures var y := Arrived(w, |frame|);
      y.wrFin && y.frmLen == |frame| && y.frame[8..8 + y.frmLen] == frame && Follows(Seen(w, y), 0, frame)
  {
    hide Xgmii.Receive, Xgmii.Ordered, Xgmii.Repacked, ReadBack, Follows, Xgmii.DataCycles;
    var n := |frame|;
    Xgmii.OrderedRoundTripIff(w.r, w.wrBuf, n, w.x);
    var y := Arrived(w, n);
    ReadBackFollows(Xgmii.Repacked(y.frame, n, w.bus), w.before, frame);
  }

  /** So for every message but Announce. */
  lemma MessageCrossesLink(b: seq<Octet>, c: Common, m: Content, a: Frame.Addresses, network: Frame.Network,
                           encapsulation: Frame.Encapsulation, vlan: Frame.VlanTags, frame: seq<Octet>, w: Way)
    requires |b| == PACKET_SIZE && ValidContent(m) && HEADER_LENGTH <= m.length <= 172
    requires Frame.ValidAddresses(a) && !(network == Frame.Ieee8023 && encapsulation == Frame.Pppoe)
    requires frame == Frame.FrameOf(a, network, encapsulation, vlan, Packed(b, c, m)[..m.length], m.messageType)
    requires Loaded(w, frame)
    ensures var y := Arrived(w, |frame|);
      y.frmLen == |frame| <= Frame.BUFFER && Delivered(Seen(w, y), Packed(b, c, m), m.length, m.messageType)
  {
    hide Packed, Frame.FrameOf, Arrived, Delivered, Seen, Loaded, Sendable, Frame.ValidAddresses, Crc32.Fcs;
    PackedIsSendable(b, c, m);
    SendableCrossesLink(Packed(b, c, m), m.length, m.messageType, a, network, encapsulation, vlan, frame, w);
  }

  /** What the software stores of the Announce it finds in f is the record of d, sent by port. */
  predicate Stores(f: seq<Octet>, d: DefaultDS, port: PortIdentity)
    requires |f| == Frame.BUFFER
  {
    var r := Frame.Parse(f);
    && r.Ptp? && r.length == 64 && r.head + 64 <= |f|
    && Bmc.Announces(d, RecordIn(f[r.head..r.head + 64])) && RecordIn(f[r.head..r.head + 64]).sender == port
  }

  /** The frame arrives whole with the message p, and brings the record of d, sent by port. */
  predicate Brings(w: Way, frame: seq<Octet>, p: seq<Octet>, d: DefaultDS, port: PortIdentity)
    requires Loaded(w, frame) && |p| == PACKET_SIZE
  {
    var y := Arrived(w, |frame|);
    y.frmLen <= Frame.BUFFER && Delivered(Seen(w, y), p, 64, 0xB) && Stores(Seen(w, y), d, port)
  }

  /** And a master's Announce arrives as the record that the election at the other end compares for that master. */
  lemma AnnounceCrossesLink(b: seq<Octet>, c: Common, d: DefaultDS, s: Sets, sequence: UInt16, logInterval: Octet,
                            a: Frame.Addresses, network: Frame.Network, encapsulation: Frame.Encapsulation,
                            vlan: Frame.VlanTags, p: seq<Octet>, frame: seq<Octet>, w: Way)
    requires |b| == PACKET_SIZE && c.port.clock == d.identity && Bmc.OwnSets(d, s)
    requires p == PackedAnnounce(b, c, d, s, sequence, logInterval)
    requires Frame.ValidAddresses(a) && !(network == Frame.Ieee8023 && encapsulation == Frame.Pppoe)
    requires frame == Frame.FrameOf(a, network, encapsulation, vlan, p[..64], 0xB) && Loaded(w, frame)
    ensures Brings(w, frame, p, d, c.port)
  {
    hide PackedAnnounce, Frame.FrameOf, Arrived, Seen, Sendable, Frame.ValidAddresses, Crc32.Fcs, RecordIn;
    hide Frame.Parse, Bmc.Announces, Bmc.OwnSets;
    AnnounceIsSendable(b, c, d, s, sequence, logInterval);
    SendableCrossesLink(p, 64, 0xB, a, network, encapsulation, vlan, frame, w);
    var f := Seen(w, Arrived(w, |frame|));
    var head := Frame.Parse(f).head;
    assert f[head..head + 64][..64] == f[head..head + 64];
    PeerStoresAnnounce(b, c, d, s, sequence, logInterval, f[head..head + 64]);
  }

  /** So it is for every Announce that a port sends in a run from power-up. */
  lemma RunningMasterIsHeard(start: Port.Port, config: Port.Config, inputs: seq<Port.Input>, q: Port.Port, b: seq<Octet>,
                             c: Common, sequence: UInt16, logInterval: Octet, a: Frame.Addresses, network: Frame.Network,
                             encapsulation: Frame.Encapsulation, vlan: Frame.VlanTags, p: seq<Octet>, frame: seq<Octet>,
                             w: Way)
    requires PortRuns.RunsToMaster(start, config, inputs, q)
    requires |b| == PACKET_SIZE && c.port == Port.OwnPort(q, config)
    requires p == PackedAnnounce(b, c, q.d, q.sets, sequence, logInterval)
    requires Frame.ValidAddresses(a) && !(network == Frame.Ieee8023 && encapsulation == Frame.Pppoe)
    requires frame == Frame.FrameOf(a, network, encapsulation, vlan, p[..64], 0xB) && Loaded(w, frame)
    ensures Brings(w, frame, p, q.d, Port.OwnPort(q, config))
  {
    hide PackedAnnounce, Frame.FrameOf, Arrived, Seen, Sendable, Frame.ValidAddresses, Crc32.Fcs, RecordIn;
    hide Stores, Delivered, Bmc.OwnSets, PortRuns.RunsToMaster;
    PortRuns.RunningMasterOwnsSets(start, config, inputs, q);
    AnnounceCrossesLink(b, c, q.d, q.sets, sequence, logInterval, a, network, encapsulation, vlan, p, frame, w);
  }

  lemma FrameSizes(a: Frame.Addresses, network: Frame.Network, encapsulation: Frame.Encapsulation, vlan: Frame.VlanTags,
                   msg: seq<Octet>, messageType: Octet)
    requires Frame.ValidAddresses(a) && |msg| <= 172
    ensures 8 <= |Frame.FrameOf(a, network, encapsulation, vlan, msg, messageType)| <= Frame.BUFFER
  {
    hide Frame.FrameOf;
    Frame.FrameLength(a, network, encapsulation, vlan, msg, messageType);
    Frame.MessagesFit(a, network, encapsulation, vlan, msg, messageType);
  }

  lemma FrameResidue(a: Frame.Addresses, network: Frame.Network, encapsulation: Frame.Encapsulation, vlan: Frame.VlanTags,
                     msg: seq<Octet>, messageType: Octet)
    requires |msg| <= Frame.BUFFER
    ensures Crc32.Fcs(Frame.FrameOf(a, network, encapsulation, vlan, msg, messageType)) == 0x2144_DF1C
  {
    hide Crc32.Fcs, Frame.Assembled, Frame.UdpPort;
    Frame.AssembledResidue(a, msg, Frame.LengthType(network, encapsulation, |msg|), Frame.Ether2Type(network, encapsulation),
                           vlan, Frame.UdpPort(messageType));
  }
}
