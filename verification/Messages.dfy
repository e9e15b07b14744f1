/** The PTP messages of esl/sw/dep/msg.cpp, packed into a buffer that is never cleared and unpacked again. */
module Messages {
  import opened Bits
  import opened TimeArith
  import opened DataSets
  import opened Layout
  import Bmc
  import Frame

  const HEADER_LENGTH := 34
  const PACKET_SIZE := 300
  const PTP_TWO_STEP := 2
  const ZERO32: seq<Octet> := [0, 0, 0, 0]
  const ZERO10: seq<Octet> := [0, 0, 0, 0, 0, 0, 0, 0, 0, 0]

  /** What every message of a clock carries. */
  datatype Common = Common(version: Octet, domain: Octet, twoStep: bool, port: PortIdentity)

  /** The two words of a correction field, as on the wire. */
  datatype Correction = Correction(msb: UInt32, lsb: UInt32)

  /** The header fields of msgUnpackHeader. */
  datatype MsgHeader = MsgHeader(
    transport: int, messageType: int, version: int, length: UInt16, domain: Octet, reserved1: Octet,
    flagField0: Octet, flagField1: Octet, correction: Correction, reserved2: UInt32, sender: PortIdentity,
    sequence: UInt16, control: Octet, logInterval: Octet)

  /** What a pack function adds to the common part; None means that the octets are not written. */
  datatype Content = Content(
    messageType: int, length: UInt16, domain: Option<Octet>, correction: Correction, reserved2: Option<UInt32>,
    sequence: UInt16, control: Octet, logInterval: Octet, body: seq<Octet>)

  predicate ValidContent(m: Content) {
    0 <= m.messageType < 16 && HEADER_LENGTH + |m.body| <= PACKET_SIZE
  }

  // ---- Packing

  function IdentityAt(f: seq<Octet>, m: nat): Identity
    requires m + 8 <= |f|
  {
    f[m..m + 8]
  }

  function PortOctets(p: PortIdentity): (s: seq<Octet>)
    ensures |s| == 10
  {
    p.clock + Wide(p.port)
  }

  function PortAt(f: seq<Octet>, m: nat): PortIdentity
    requires m + 10 <= |f|
  {
    PortIdentity(IdentityAt(f, m), At16(f, m + 8))
  }

  /** msgPackHeader. */
  function PackedHeader(b: seq<Octet>, c: Common): (r: seq<Octet>)
    requires |b| == PACKET_SIZE
    ensures |r| == PACKET_SIZE
  {
    var b1 := Write(Write(Write(b, 0, [0x10]), 1, [c.version]), 4, [c.domain]);
    var b2 := if c.twoStep then Write(b1, 6, [PTP_TWO_STEP]) else b1;
    Write(Write(Write(b2, 8, ZERO32 + ZERO32), 20, PortOctets(c.port)), 33, [0x7F])
  }

  /** The header changes of one kind of message, and its body. */
  function Packed(b: seq<Octet>, c: Common, m: Content): (r: seq<Octet>)
    requires |b| == PACKET_SIZE && ValidContent(m)
    ensures |r| == PACKET_SIZE
  {
    var h := PackedHeader(b, c);
    var b1 := Write(Write(h, 0, [h[0] / 16 * 16 + m.messageType]), 2, Wide(m.length));
    var b2 := if m.domain.Some? then Write(b1, 4, [m.domain.value]) else b1;
    var b3 := Write(b2, 8, Wide32(m.correction.msb) + Wide32(m.correction.lsb));
    var b4 := if m.reserved2.Some? then Write(b3, 16, Wide32(m.reserved2.value)) else b3;
    var b5 := Write(Write(Write(b4, 30, Wide(m.sequence)), 32, [m.control]), 33, [m.logInterval]);
    Write(b5, HEADER_LENGTH, m.body)
  }

  // ---- Unpacking

  function UnpackedHeader(f: seq<Octet>): MsgHeader
    requires |f| >= HEADER_LENGTH
  {
    MsgHeader(f[0] / 16, f[0] % 16, f[1] % 16, At16(f, 2), f[4], f[5], f[6], f[7],
              Correction(At32(f, 8), At32(f, 12)), At32(f, 16), PortAt(f, 20), At16(f, 30), f[32], f[33])
  }

  /** The timestamp that all timed messages carry behind the header. */
  function UnpackedTimestamp(f: seq<Octet>): Timestamp
    requires |f| >= 44
  {
    Timestamp(At16(f, 34), At32(f, 36), At32(f, 40))
  }

  function UnpackedRequester(f: seq<Octet>): PortIdentity
    requires |f| >= 54
  {
    PortAt(f, 44)
  }

  predicate WireTimestamp(ts: Timestamp) {
    0 <= ts.secondsMsb < 0x1_0000 && 0 <= ts.secondsLsb < 0x1_0000_0000 && 0 <= ts.nanosecondsField < 0x1_0000_0000
  }

  function TimestampOctets(ts: Timestamp): (s: seq<Octet>)
    requires WireTimestamp(ts)
    ensures |s| == 10
  {
    Wide(ts.secondsMsb) + (Wide32(ts.secondsLsb) + Wide32(ts.nanosecondsField))
  }

  // ---- What packing writes and what it leaves

  lemma PortRoundTrip(f: seq<Octet>, m: nat, p: PortIdentity)
    requires Follows(f, m, PortOctets(p))
    ensures m + 10 <= |f| && PortAt(f, m) == p
  {
    hide Wide, At16;
    FollowsParts(f, m, p.clock, Wide(p.port));
    FollowsWide(f, m + 8, p.port);
    assert f[m..m + 8] == p.clock;
  }

  /** msgPackHeader leaves octets 5, 7 and 16 to 19 alone, and octet 6 unless the clock is two-step. */
  lemma HeaderWrites(b: seq<Octet>, c: Common)
    requires |b| == PACKET_SIZE
    ensures var r := PackedHeader(b, c);
      r[0] == 0x10 && r[1] == c.version && r[4] == c.domain && r[5] == b[5] && r[7] == b[7]
      && r[6] == (if c.twoStep then PTP_TWO_STEP else b[6]) && r[33] == 0x7F
      && r[2..4] == b[2..4] && r[8..16] == ZERO32 + ZERO32 && r[30..33] == b[30..33]
      && Follows(r, 16, b[16..20]) && Follows(r, 20, PortOctets(c.port))
      && forall i :: HEADER_LENGTH <= i < PACKET_SIZE ==> r[i] == b[i]
  {
    hide Write, PortOctets;
  }

  /** The octets of a packed message, field by field, over whatever the buffer held. */
  lemma MessageWrites(b: seq<Octet>, c: Common, m: Content)
    requires |b| == PACKET_SIZE && ValidContent(m)
    ensures var r := Packed(b, c, m);
      && r[0] == 0x10 + m.messageType && r[1] == c.version && r[5] == b[5] && r[7] == b[7]
      && r[4] == (if m.domain.Some? then m.domain.value else c.domain)
      && r[6] == (if c.twoStep then PTP_TWO_STEP else b[6])
      && r[32] == m.control && r[33] == m.logInterval
      && Follows(r, 2, Wide(m.length)) && Follows(r, 8, Wide32(m.correction.msb) + Wide32(m.correction.lsb))
      && Follows(r, 16, if m.reserved2.Some? then Wide32(m.reserved2.value) else b[16..20])
      && Follows(r, 20, PortOctets(c.port)) && Follows(r, 30, Wide(m.sequence))
      && Follows(r, HEADER_LENGTH, m.body)
      && forall i :: HEADER_LENGTH + |m.body| <= i < PACKET_SIZE ==> r[i] == b[i]
  {
    hide Write, PackedHeader, PortOctets, Wide, Wide32;
    HeaderWrites(b, c);
  }

  // ---- Round trips

  /** Whatever was in the buffer, the header comes out as put in, with the four stale places as they were. */
  lemma HeaderRoundTrip(b: seq<Octet>, c: Common, m: Content)
    requires |b| == PACKET_SIZE && ValidContent(m)
    ensures UnpackedHeader(Packed(b, c, m)) ==
      MsgHeader(1, m.messageType, c.version % 16, m.length, if m.domain.Some? then m.domain.value else c.domain, b[5],
                if c.twoStep then PTP_TWO_STEP else b[6], b[7], m.correction,
                if m.reserved2.Some? then m.reserved2.value else At32(b, 16), c.port, m.sequence, m.control, m.logInterval)
  {
    hide Packed, Wide, Wide32, At16, At32, PortOctets, Follows, PortAt;
    var r := Packed(b, c, m);
    MessageWrites(b, c, m);
    FollowsWide(r, 2, m.length);
    FollowsParts(r, 8, Wide32(m.correction.msb), Wide32(m.correction.lsb));
    FollowsWide32(r, 8, m.correction.msb);
    FollowsWide32(r, 12, m.correction.lsb);
    PortRoundTrip(r, 20, c.port);
    FollowsWide(r, 30, m.sequence);
    match m.reserved2 {
      case Some(x) => FollowsWide32(r, 16, x);
      case None => StaleWord(r, b);
    }
  }

  lemma StaleWord(r: seq<Octet>, b: seq<Octet>)
    requires |r| == |b| == PACKET_SIZE && Follows(r, 16, b[16..20])
    ensures At32(r, 16) == At32(b, 16)
  {
    assert r[16] == b[16] && r[17] == b[17] && r[18] == b[18] && r[19] == b[19];
  }

  /** Timestamp and requesting port come out as put in. */
  lemma BodyRoundTrip(b: seq<Octet>, c: Common, m: Content, ts: Timestamp, rest: seq<Octet>)
    requires |b| == PACKET_SIZE && ValidContent(m) && WireTimestamp(ts) && m.body == TimestampOctets(ts) + rest
    ensures UnpackedTimestamp(Packed(b, c, m)) == ts
    ensures forall p: PortIdentity :: rest == PortOctets(p) ==> UnpackedRequester(Packed(b, c, m)) == p
  {
    hide Packed, Wide, Wide32, At16, At32, PortOctets, Follows, PortAt;
    var r := Packed(b, c, m);
    MessageWrites(b, c, m);
    FollowsParts(r, 34, TimestampOctets(ts), rest);
    FollowsParts(r, 34, Wide(ts.secondsMsb), Wide32(ts.secondsLsb) + Wide32(ts.nanosecondsField));
    FollowsParts(r, 36, Wide32(ts.secondsLsb), Wide32(ts.nanosecondsField));
    FollowsWide(r, 34, ts.secondsMsb);
    FollowsWide32(r, 36, ts.secondsLsb);
    FollowsWide32(r, 40, ts.nanosecondsField);
    forall p: PortIdentity | rest == PortOctets(p)
      ensures UnpackedRequester(r) == p
    {
      PortRoundTrip(r, 44, p);
    }
  }

  // ---- The kinds of message

  function SyncContent(ts: Timestamp, sequence: UInt16, logInterval: Octet): Content
    requires WireTimestamp(ts)
  {
    Content(0x0, 44, None, Correction(0, 0), None, sequence, 0x00, logInterval, TimestampOctets(ts))
  }

  function FollowUpContent(ts: Timestamp, sequence: UInt16, logInterval: Octet): Content
    requires WireTimestamp(ts)
  {
    Content(0x8, 44, None, Correction(0, 0), None, sequence, 0x02, logInterval, TimestampOctets(ts))
  }

  function DelayReqContent(ts: Timestamp, sequence: UInt16): Content
    requires WireTimestamp(ts)
  {
    Content(0x1, 44, None, Correction(0, 0), None, sequence, 0x01, 0x7F, TimestampOctets(ts))
  }

  function PDelayReqContent(ts: Timestamp, sequence: UInt16): Content
    requires WireTimestamp(ts)
  {
    Content(0x2, 54, None, Correction(0, 0), None, sequence, 0x05, 0x7F, TimestampOctets(ts) + ZERO10)
  }

  function DelayRespContent(request: MsgHeader, ts: Timestamp, logInterval: Octet): Content
    requires WireTimestamp(ts)
  {
    Content(0x9, 54, Some(request.domain), request.correction, None, request.sequence, 0x03, logInterval,
            TimestampOctets(ts) + PortOctets(request.sender))
  }

  function PDelayRespContent(request: MsgHeader, ts: Timestamp): Content
    requires WireTimestamp(ts)
  {
    Content(0x3, 54, Some(request.domain), Correction(0, 0), Some(request.reserved2), request.sequence, 0x05, 0x7F,
            TimestampOctets(ts) + PortOctets(request.sender))
  }

  function PDelayRespFollowUpContent(request: MsgHeader, ts: Timestamp): Content
    requires WireTimestamp(ts)
  {
    Content(0xA, 54, None, request.correction, None, request.sequence, 0x05, 0x7F,
            TimestampOctets(ts) + PortOctets(request.sender))
  }

  /** The control octet that IEEE 1588-2008, table 23, gives each type. */
  function ControlOf(messageType: int): Octet {
    if messageType == 0x0 then 0 else if messageType == 0x1 then 1 else if messageType == 0x8 then 2
    else if messageType == 0x9 then 3 else 5
  }

  /** Type, control octet and interval of a message, and a length field that counts header and body. */
  predicate IsKind(m: Content, messageType: int, logInterval: Octet, sequence: UInt16) {
    && m.messageType == messageType && m.control == ControlOf(messageType) && m.logInterval == logInterval
    && m.sequence == sequence && m.length == HEADER_LENGTH + |m.body| && ValidContent(m)
  }

  lemma KindsOfMessage(ts: Timestamp, sequence: UInt16, logInterval: Octet, request: MsgHeader)
    requires WireTimestamp(ts)
    ensures IsKind(SyncContent(ts, sequence, logInterval), 0x0, logInterval, sequence)
    ensures IsKind(FollowUpContent(ts, sequence, logInterval), 0x8, logInterval, sequence)
    ensures IsKind(DelayReqContent(ts, sequence), 0x1, 0x7F, sequence)
    ensures IsKind(PDelayReqContent(ts, sequence), 0x2, 0x7F, sequence)
    ensures SyncContent(ts, sequence, logInterval).correction == FollowUpContent(ts, sequence, logInterval).correction
         == DelayReqContent(ts, sequence).correction == PDelayReqContent(ts, sequence).correction == Correction(0, 0)
    ensures IsKind(DelayRespContent(request, ts, logInterval), 0x9, logInterval, request.sequence)
    ensures IsKind(PDelayRespContent(request, ts), 0x3, 0x7F, request.sequence)
    ensures IsKind(PDelayRespFollowUpContent(request, ts), 0xA, 0x7F, request.sequence)
  {
    hide TimestampOctets, PortOctets;
  }

  /** So every message comes out with its type, control octet, length, sequence id, interval and sender. */
  lemma KindSurvives(b: seq<Octet>, c: Common, m: Content, messageType: int, logInterval: Octet, sequence: UInt16)
    requires |b| == PACKET_SIZE && IsKind(m, messageType, logInterval, sequence)
    ensures var h := UnpackedHeader(Packed(b, c, m));
      && h.messageType == messageType && h.control == ControlOf(messageType) && h.logInterval == logInterval
      && h.sequence == sequence && h.length == HEADER_LENGTH + |m.body| && h.sender == c.port && h.transport == 1
      && h.version == c.version % 16 && h.correction == m.correction
  {
    hide Packed, UnpackedHeader;
    HeaderRoundTrip(b, c, m);
  }

  lemma ToTimestampFits(t: Time, before: Timestamp)
    requires 0 <= t.seconds && 0 <= t.nanoseconds < 0x1_0000_0000
    ensures WireTimestamp(ToTimestamp(t, before))
  {}

  /** A time put into a Sync or Follow_Up arrives unchanged if and only if its seconds fit 48 bits. */
  lemma SyncTimeRoundTrip(b: seq<Octet>, c: Common, t: Time, before: Timestamp, sequence: UInt16, logInterval: Octet)
    requires |b| == PACKET_SIZE && 0 <= t.seconds && 0 <= t.nanoseconds < 0x1_0000_0000
    ensures WireTimestamp(ToTimestamp(t, before))
    ensures var ts := ToTimestamp(t, before);
      && (FromTimestamp(UnpackedTimestamp(Packed(b, c, SyncContent(ts, sequence, logInterval)))) == t
          <==> t.seconds < 0x1_0000_0000_0000)
      && (FromTimestamp(UnpackedTimestamp(Packed(b, c, FollowUpContent(ts, sequence, logInterval)))) == t
          <==> t.seconds < 0x1_0000_0000_0000)
  {
    hide Packed, TimestampOctets, UnpackedTimestamp;
    ToTimestampFits(t, before);
    var ts := ToTimestamp(t, before);
    assert TimestampOctets(ts) + [] == TimestampOctets(ts);
    BodyRoundTrip(b, c, SyncContent(ts, sequence, logInterval), ts, []);
    BodyRoundTrip(b, c, FollowUpContent(ts, sequence, logInterval), ts, []);
    TimestampRoundTrip(t, before);
  }

  /** A request carries its sequence id, its sender and the time put in. */
  lemma RequestRoundTrip(b: seq<Octet>, c: Common, ts: Timestamp, sequence: UInt16)
    requires |b| == PACKET_SIZE && WireTimestamp(ts)
    ensures var r := Packed(b, c, DelayReqContent(ts, sequence));
      var h := UnpackedHeader(r);
      h.messageType == 0x1 && h.sequence == sequence && h.sender == c.port && UnpackedTimestamp(r) == ts
    ensures var r := Packed(b, c, PDelayReqContent(ts, sequence));
      var h := UnpackedHeader(r);
      h.messageType == 0x2 && h.sequence == sequence && h.sender == c.port && UnpackedTimestamp(r) == ts
  {
    hide Packed, TimestampOctets, UnpackedTimestamp, UnpackedHeader, UnpackedRequester;
    assert TimestampOctets(ts) + [] == TimestampOctets(ts);
    HeaderRoundTrip(b, c, DelayReqContent(ts, sequence));
    BodyRoundTrip(b, c, DelayReqContent(ts, sequence), ts, []);
    HeaderRoundTrip(b, c, PDelayReqContent(ts, sequence));
    BodyRoundTrip(b, c, PDelayReqContent(ts, sequence), ts, ZERO10);
  }

  /** A response names the request it answers: same sequence id, sender and domain, and the time put in. */
  lemma ResponsesNameTheirRequest(b: seq<Octet>, c: Common, request: MsgHeader, ts: Timestamp, logInterval: Octet)
    requires |b| == PACKET_SIZE && WireTimestamp(ts)
    ensures var r := Packed(b, c, DelayRespContent(request, ts, logInterval));
      var h := UnpackedHeader(r);
      && h.messageType == 0x9 && h.sequence == request.sequence && h.domain == request.domain
      && h.correction == request.correction && h.sender == c.port
      && UnpackedRequester(r) == request.sender && UnpackedTimestamp(r) == ts
    ensures var r := Packed(b, c, PDelayRespContent(request, ts));
      var h := UnpackedHeader(r);
      && h.messageType == 0x3 && h.sequence == request.sequence && h.domain == request.domain
      && h.correction == Correction(0, 0) && h.reserved2 == request.reserved2 && h.sender == c.port
      && UnpackedRequester(r) == request.sender && UnpackedTimestamp(r) == ts
    ensures var r := Packed(b, c, PDelayRespFollowUpContent(request, ts));
      var h := UnpackedHeader(r);
      && h.messageType == 0xA && h.sequence == request.sequence && h.correction == request.correction
      && h.sender == c.port && UnpackedRequester(r) == request.sender && UnpackedTimestamp(r) == ts
  {
    hide Packed, TimestampOctets, UnpackedTimestamp, UnpackedHeader, UnpackedRequester, PortOctets;
    var x, y, z := DelayRespContent(request, ts, logInterval), PDelayRespContent(request, ts), PDelayRespFollowUpContent(request, ts);
    HeaderRoundTrip(b, c, x);
    BodyRoundTrip(b, c, x, ts, PortOctets(request.sender));
    HeaderRoundTrip(b, c, y);
    BodyRoundTrip(b, c, y, ts, PortOctets(request.sender));
    HeaderRoundTrip(b, c, z);
    BodyRoundTrip(b, c, z, ts, PortOctets(request.sender));
  }

  // ---- Announce

  function Signed16(x: UInt16): int { if x < 0x8000 then x else x - 0x1_0000 }

  /** A number stored in 16 bits and read back with its sign. */
  function Wrapped16(x: int): int { Signed16(x % 0x1_0000) }

  function AnnounceContent(utcOffset: int, sequence: UInt16, logInterval: Octet): Content {
    Content(0xB, 64, None, Correction(0, 0), None, sequence, 0x05, logInterval, ZERO10 + Wide(utcOffset % 0x1_0000))
  }

  /** The fields behind the untouched octet 46. The quality is the clock's own, the rest the grandmaster's. */
  function AnnounceTail(d: DefaultDS, s: Sets): (t: seq<Octet>)
    ensures |t| == 17
  {
    [s.parent.priority1, d.quality.clockClass, d.quality.accuracy]
    + (Wide(d.quality.variance)
       + ([s.parent.priority2] + (s.parent.grandmaster + (Wide(s.current.stepsRemoved) + [s.timeProperties.timeSource]))))
  }

  /** msgPackAnnounce. */
  function PackedAnnounce(b: seq<Octet>, c: Common, d: DefaultDS, s: Sets, sequence: UInt16, logInterval: Octet): (r: seq<Octet>)
    requires |b| == PACKET_SIZE
    ensures |r| == PACKET_SIZE
  {
    Write(Packed(b, c, AnnounceContent(s.timeProperties.utcOffset, sequence, logInterval)), 47, AnnounceTail(d, s))
  }

  /** msgUnpackAnnounce. */
  function UnpackedAnnounce(f: seq<Octet>): Announce
    requires |f| >= 64
  {
    Announce(Signed16(At16(f, 44)), f[47], Quality(f[48], f[49], At16(f, 50)), f[52], IdentityAt(f, 53), At16(f, 61), f[63])
  }

  /** What a clock announces: its own quality, and for the rest what it knows of the grandmaster. */
  function AnnounceOf(d: DefaultDS, s: Sets): Announce {
    Announce(s.timeProperties.utcOffset, s.parent.priority1, d.quality, s.parent.priority2, s.parent.grandmaster,
             s.current.stepsRemoved, s.timeProperties.timeSource)
  }

  lemma TailRoundTrip(f: seq<Octet>, d: DefaultDS, s: Sets)
    requires |f| >= 64 && Follows(f, 47, AnnounceTail(d, s))
    ensures f[47] == s.parent.priority1 && f[48] == d.quality.clockClass && f[49] == d.quality.accuracy
    ensures At16(f, 50) == d.quality.variance && f[52] == s.parent.priority2 && IdentityAt(f, 53) == s.parent.grandmaster
    ensures At16(f, 61) == s.current.stepsRemoved && f[63] == s.timeProperties.timeSource
  {
    hide Wide, At16, Follows;
    var first := [s.parent.priority1, d.quality.clockClass, d.quality.accuracy];
    var last := Wide(s.current.stepsRemoved) + [s.timeProperties.timeSource];
    FollowsParts(f, 47, first, Wide(d.quality.variance) + ([s.parent.priority2] + (s.parent.grandmaster + last)));
    FollowsParts(f, 50, Wide(d.quality.variance), [s.parent.priority2] + (s.parent.grandmaster + last));
    FollowsParts(f, 52, [s.parent.priority2], s.parent.grandmaster + last);
    FollowsParts(f, 53, s.parent.grandmaster, last);
    FollowsParts(f, 61, Wide(s.current.stepsRemoved), [s.timeProperties.timeSource]);
    FollowsOctet(f, 47, first, 0);
    FollowsOctet(f, 47, first, 1);
    FollowsOctet(f, 47, first, 2);
    FollowsWide(f, 50, d.quality.variance);
    FollowsOctet(f, 52, [s.parent.priority2], 0);
    FollowsIdentity(f, 53, s.parent.grandmaster);
    FollowsWide(f, 61, s.current.stepsRemoved);
    FollowsOctet(f, 63, [s.timeProperties.timeSource], 0);
  }

  lemma FollowsIdentity(f: seq<Octet>, m: nat, id: Identity)
    requires Follows(f, m, id)
    ensures m + 8 <= |f| && IdentityAt(f, m) == id
  {
    assert f[m..m + 8] == id;
  }

  lemma Signed16RoundTrip(x: int)
    ensures Signed16(x % 0x1_0000) == x <==> -0x8000 <= x < 0x8000
  {}

  /** An Announce comes out as put in, up to a UTC offset of 16 bits; octet 46 stays as it was. */
  lemma AnnounceRoundTrip(b: seq<Octet>, c: Common, d: DefaultDS, s: Sets, sequence: UInt16, logInterval: Octet)
    requires |b| == PACKET_SIZE
    ensures var r := PackedAnnounce(b, c, d, s, sequence, logInterval);
      && UnpackedAnnounce(r) == AnnounceOf(d, s).(utcOffset := Wrapped16(s.timeProperties.utcOffset))
      && (UnpackedAnnounce(r) == AnnounceOf(d, s) <==> -0x8000 <= s.timeProperties.utcOffset < 0x8000)
      && UnpackedHeader(r) == MsgHeader(1, 0xB, c.version % 16, 64, c.domain, b[5], if c.twoStep then PTP_TWO_STEP else b[6],
                                        b[7], Correction(0, 0), At32(b, 16), c.port, sequence, ControlOf(0xB), logInterval)
      && r[46] == b[46]
  {
    hide Packed, Wide, At16, Follows, UnpackedHeader, Write, AnnounceTail, IdentityAt;
    var m := AnnounceContent(s.timeProperties.utcOffset, sequence, logInterval);
    var p := Packed(b, c, m);
    var utc := s.timeProperties.utcOffset % 0x1_0000;
    MessageWrites(b, c, m);
    HeaderRoundTrip(b, c, m);
    FollowsParts(p, 34, ZERO10, Wide(utc));
    var r := PackedAnnounce(b, c, d, s, sequence, logInterval);
    WriteFollows(p, 47, AnnounceTail(d, s));
    WriteKeeps(p, 47, AnnounceTail(d, s), 44, Wide(utc));
    WriteKeepsHeader(p, 47, AnnounceTail(d, s));
    FollowsWide(r, 44, utc);
    TailRoundTrip(r, d, s);
    Signed16RoundTrip(s.timeProperties.utcOffset);
    assert p[46] == b[46];
  }

  lemma WriteKeepsHeader(p: seq<Octet>, at: nat, t: seq<Octet>)
    requires |p| == PACKET_SIZE && HEADER_LENGTH <= at && at + |t| <= |p|
    ensures UnpackedHeader(Write(p, at, t)) == UnpackedHeader(p)
  {
    hide Write;
    var r := Write(p, at, t);
    assert r[20..28] == p[20..28];
  }

  /** A clock announces the record that its own comparison uses for itself exactly if it is its own grandmaster. */
  lemma AnnouncesItselfIff(d: DefaultDS, s: Sets, port: PortIdentity, flags: Flags, utcOffset: int)
    requires port.clock == d.identity
    ensures Bmc.Announces(d, Record(port, flags, AnnounceOf(d, s).(utcOffset := utcOffset))) <==>
      s.parent.grandmaster == d.identity && s.parent.priority1 == d.priority1 && s.parent.priority2 == d.priority2
      && s.current.stepsRemoved == 0
  {}

  predicate HasBit(x: nat, k: int)
    requires k > 0
  {
    x / k % 2 == 1
  }

  /** The flags that the best-master algorithm reads from octet 7. */
  function FlagsOf(x: Octet): Flags {
    Flags(HasBit(x, 1), HasBit(x, 2), HasBit(x, 4), HasBit(x, 8), HasBit(x, 16), HasBit(x, 32))
  }

  /** The lower part of a number grows by one bit at a time. */
  lemma LowerBits(x: nat, k: int)
    requires k > 0
    ensures x % (2 * k) == x % k + if HasBit(x, k) then k else 0
  {
    var h, r := x / k / 2, x % k;
    assert x == k * (x / k) + r;
    if HasBit(x, k) {
      assert k * (2 * h + 1) == h * (2 * k) + k;
      ModUnique(x, h, k + r, 2 * k);
    } else {
      assert k * (2 * h) == h * (2 * k);
      ModUnique(x, h, r, 2 * k);
    }
  }

  /** Flag by flag, the lower six bits of the octet. */
  lemma FlagsAreBits(x: Octet)
    ensures var f := FlagsOf(x);
      x % 64 == (if f.leap61 then 1 else 0) + (if f.leap59 then 2 else 0) + (if f.utcValid then 4 else 0)
                + (if f.ptpTimescale then 8 else 0) + (if f.timeTraceable then 16 else 0)
                + if f.frequencyTraceable then 32 else 0
  {
    hide HasBit;
    LowerBits(x, 1);
    LowerBits(x, 2);
    LowerBits(x, 4);
    LowerBits(x, 8);
    LowerBits(x, 16);
    LowerBits(x, 32);
  }

  /** What a receiver stores of an Announce in its buffer. */
  function RecordIn(f: seq<Octet>): Record
    requires |f| >= 64
  {
    Record(UnpackedHeader(f).sender, FlagsOf(UnpackedHeader(f).flagField1), UnpackedAnnounce(f))
  }

  /** So what a receiver of a master's Announce stores is a record the election theorem is about. */
  lemma PeerStoresAnnounce(b: seq<Octet>, c: Common, d: DefaultDS, s: Sets, sequence: UInt16, logInterval: Octet,
                           f: seq<Octet>)
    requires |b| == PACKET_SIZE && c.port.clock == d.identity && Bmc.OwnSets(d, s)
    requires |f| >= 64 && f[..64] == PackedAnnounce(b, c, d, s, sequence, logInterval)[..64]
    ensures Bmc.Announces(d, RecordIn(f)) && RecordIn(f).sender == c.port
  {
    hide PackedAnnounce, UnpackedAnnounce, UnpackedHeader, FlagsOf, Wrapped16, Bmc.Announces;
    var r := PackedAnnounce(b, c, d, s, sequence, logInterval);
    AnnounceRoundTrip(b, c, d, s, sequence, logInterval);
    HeaderOfPrefix(f, 64);
    HeaderOfPrefix(r, 64);
    AnnounceOfPrefix(f);
    AnnounceOfPrefix(r);
    AnnouncesItselfIff(d, s, c.port, FlagsOf(b[7]), Wrapped16(s.timeProperties.utcOffset));
  }

  lemma AnnounceOfPrefix(f: seq<Octet>)
    requires |f| >= 64
    ensures UnpackedAnnounce(f[..64]) == UnpackedAnnounce(f)
  {
    assert f[..64][53..61] == f[53..61];
  }

  // ---- Through a frame

  lemma HeaderOfPrefix(p: seq<Octet>, n: nat)
    requires HEADER_LENGTH <= n <= |p|
    ensures UnpackedHeader(p[..n]) == UnpackedHeader(p)
  {
    assert p[..n][20..28] == p[20..28];
  }

  /** A packed message: its length field says n, and octet 0 its type. */
  predicate Sendable(p: seq<Octet>, n: UInt16, messageType: Octet) {
    |p| == PACKET_SIZE && HEADER_LENGTH <= n <= 172 && At16(p, 2) == n && p[0] % 16 == messageType
  }

  lemma PackedIsSendable(b: seq<Octet>, c: Common, m: Content)
    requires |b| == PACKET_SIZE && ValidContent(m) && HEADER_LENGTH <= m.length <= 172
    ensures Sendable(Packed(b, c, m), m.length, m.messageType)
  {
    hide Packed, Wide, At16, Follows;
    MessageWrites(b, c, m);
    FollowsWide(Packed(b, c, m), 2, m.length);
  }

  lemma AnnounceIsSendable(b: seq<Octet>, c: Common, d: DefaultDS, s: Sets, sequence: UInt16, logInterval: Octet)
    requires |b| == PACKET_SIZE
    ensures Sendable(PackedAnnounce(b, c, d, s, sequence, logInterval), 64, 0xB)
  {
    hide PackedAnnounce, AnnounceOf, UnpackedAnnounce;
    AnnounceRoundTrip(b, c, d, s, sequence, logInterval);
  }

  /** The receiver finds in f the first n octets of p, that length and that type. */
  predicate Delivered(f: seq<Octet>, p: seq<Octet>, n: UInt16, messageType: int)
    requires |f| == Frame.BUFFER && n <= |p|
  {
    var r := Frame.Parse(f);
    r.Ptp? && r.length == n && r.messageType == messageType && r.head + n <= |f| && f[r.head..r.head + n] == p[..n]
  }

  /**
   * A packed message survives every encapsulation: the receiver finds its length, its type and the same octets in any
   * buffer that starts with the frame.
   */
  lemma MessageSurvivesFrame(p: seq<Octet>, n: UInt16, messageType: Octet, a: Frame.Addresses, network: Frame.Network,
                             encapsulation: Frame.Encapsulation, vlan: Frame.VlanTags, f: seq<Octet>)
    requires Sendable(p, n, messageType) && Frame.ValidAddresses(a) && |f| == Frame.BUFFER
    requires !(network == Frame.Ieee8023 && encapsulation == Frame.Pppoe)
    requires Follows(f, 0, Frame.FrameOf(a, network, encapsulation, vlan, p[..n], messageType))
    ensures Delivered(f, p, n, messageType)
  {
    hide At16, Follows, Frame.Parse, Frame.FrameOf;
    LengthField(p, n);
    Frame.ParseUndoesAssemble(a, network, encapsulation, vlan, p[..n], messageType, f);
    Frame.RoundTripIff(a, network, encapsulation, vlan, p[..n], messageType, f);
  }

  lemma LengthField(r: seq<Octet>, n: nat)
    requires 4 <= n <= |r|
    ensures At16(r[..n], 2) == At16(r, 2)
  {}

  // ---- The buffer itself

  method PutOctet(buf: array<Octet>, at: nat, x: Octet)
    requires at < buf.Length
    modifies buf
    ensures buf[..] == Write(old(buf[..]), at, [x])
  {
    buf[at] := x;
  }

  /** A 16-bit store of flip16(x). */
  method PutWide(buf: array<Octet>, at: nat, x: UInt16)
    requires at + 2 <= buf.Length
    modifies buf
    ensures buf[..] == Write(old(buf[..]), at, Wide(x))
  {
    buf[at] := x / 256;
    buf[at + 1] := x % 256;
  }

  /** memcpy and memset. */
  method PutOctets(buf: array<Octet>, at: nat, s: seq<Octet>)
    requires at + |s| <= buf.Length
    modifies buf
    ensures buf[..] == Write(old(buf[..]), at, s)
  {
    for i := 0 to |s|
      invariant forall k :: 0 <= k < buf.Length ==> buf[k] == if at <= k < at + i then s[k - at] else old(buf[k])
    {
      buf[at + i] := s[i];
    }
  }

  method PackHeader(buf: array<Octet>, c: Common)
    requires buf.Length == PACKET_SIZE
    modifies buf
    ensures buf[..] == PackedHeader(old(buf[..]), c)
  {
    hide Write, PortOctets;
    PutOctet(buf, 0, 0x10);
    PutOctet(buf, 1, c.version);
    PutOctet(buf, 4, c.domain);
    if c.twoStep {
      PutOctet(buf, 6, PTP_TWO_STEP);
    }
    PutOctets(buf, 8, ZERO32 + ZERO32);
    PutOctets(buf, 20, PortOctets(c.port));
    PutOctet(buf, 33, 0x7F);
  }

  /** The pack function of any message but Announce. */
  method Pack(buf: array<Octet>, c: Common, m: Content)
    requires buf.Length == PACKET_SIZE && ValidContent(m)
    modifies buf
    ensures buf[..] == Packed(old(buf[..]), c, m)
  {
    hide Write, PackedHeader, Wide, Wide32;
    PackHeader(buf, c);
    PutOctet(buf, 0, buf[0] / 16 * 16 + m.messageType);
    PutWide(buf, 2, m.length);
    if m.domain.Some? {
      PutOctet(buf, 4, m.domain.value);
    }
    PutOctets(buf, 8, Wide32(m.correction.msb) + Wide32(m.correction.lsb));
    if m.reserved2.Some? {
      PutOctets(buf, 16, Wide32(m.reserved2.value));
    }
    PutWide(buf, 30, m.sequence);
    PutOctet(buf, 32, m.control);
    PutOctet(buf, 33, m.logInterval);
    PutOctets(buf, HEADER_LENGTH, m.body);
  }

  method PackAnnounce(buf: array<Octet>, c: Common, d: DefaultDS, s: Sets, sequence: UInt16, logInterval: Octet)
    requires buf.Length == PACKET_SIZE
    modifies buf
    ensures buf[..] == PackedAnnounce(old(buf[..]), c, d, s, sequence, logInterval)
  {
    hide Write, Packed, AnnounceTail;
    Pack(buf, c, AnnounceContent(s.timeProperties.utcOffset, sequence, logInterval));
    PutOctets(buf, 47, AnnounceTail(d, s));
  }
}
