/** The XGMII frame buffers of esl/vl/tx_ptp_buf.v and esl/vl/rx_ptp_buf.v, lane by lane. */
module Xgmii {
  import opened Bits

  const IDLE: Octet := 0x07
  const PREAMBLE: Octet := 0x55
  const SFD: Octet := 0xd5
  const START: Octet := 0xfb
  const TERMINATE: Octet := 0xfd
  const DEPTH := 512

  /** One of the eight lanes of a transfer: a control character or a data octet. */
  datatype Lane = Lane(control: bool, octet: Octet)

  type Word = w: seq<Lane> | |w| == 8 witness seq(8, i => Lane(true, 0))

  function IdleWord(): Word { seq(8, i => Lane(true, IDLE)) }

  function StartWord(): Word {
    [Lane(true, START)] + seq(6, i => Lane(false, PREAMBLE)) + [Lane(false, SFD)]
  }

  // ---- Transmitter

  datatype TxState = TxIdle | TxFirst | TxData | TxLast

  /** The state register, the 9-bit octet counter and the output registers. */
  datatype TxRegs = TxRegs(cstate: TxState, ethCount: nat, out: Word)

  function Mod512(x: int): nat { x % DEPTH }

  function TxOctets(ethCount: nat): nat { if ethCount >= 8 then ethCount - 8 else 0 }

  predicate LastP(ethCount: nat, frmLen: nat) { TxOctets(ethCount) + 16 > frmLen }

  /** Two neighbouring words of the buffer; the second address wraps in 7 bits. */
  function DataTuple(buf: seq<Octet>, octets: nat): (t: seq<Octet>)
    requires |buf| == DEPTH && octets < DEPTH
    ensures |t| == 8
  {
    var a0, a1 := octets / 4 * 4, (octets / 4 + 1) % 128 * 4;
    buf[a0..a0 + 4] + buf[a1..a1 + 4]
  }

  function DataWord(t: seq<Octet>): Word
    requires |t| == 8
  {
    seq(8, i requires 0 <= i < 8 => Lane(false, t[i]))
  }

  /** The remaining octets, TERMINATE, and idle lanes. */
  function LastWord(t: seq<Octet>, rest: nat): Word
    requires |t| == 8 && rest < 8
  {
    seq(8, i requires 0 <= i < 8 =>
      if i < rest then Lane(false, t[i]) else if i == rest then Lane(true, TERMINATE) else Lane(true, IDLE))
  }

  function ResLen(ethCount: nat, frmLen: nat): nat { (frmLen - TxOctets(ethCount)) % DEPTH % 8 }

  /** One edge of tx_clk. */
  function TxNext(r: TxRegs, buf: seq<Octet>, frmLen: nat, start: bool): TxRegs
    requires |buf| == DEPTH && r.ethCount < DEPTH
  {
    match r.cstate {
      case TxIdle => TxRegs(if start then TxFirst else TxIdle, 0, IdleWord())
      case TxFirst => TxRegs(TxData, Mod512(r.ethCount + 8), StartWord())
      case TxData =>
        TxRegs(if LastP(r.ethCount, frmLen) then TxLast else TxData, Mod512(r.ethCount + 8),
               DataWord(DataTuple(buf, TxOctets(r.ethCount))))
      case TxLast =>
        var rest := ResLen(r.ethCount, frmLen);
        TxRegs(TxIdle, Mod512(r.ethCount + rest), LastWord(DataTuple(buf, TxOctets(r.ethCount)), rest))
    }
  }

  /** What leaves the transmitter in n cycles without another start pulse. */
  function Emitted(r: TxRegs, buf: seq<Octet>, frmLen: nat, n: nat): seq<Lane>
    requires |buf| == DEPTH && r.ethCount < DEPTH
    decreases n
  {
    if n == 0 then []
    else
      var next := TxNext(r, buf, frmLen, false);
      next.out + Emitted(next, buf, frmLen, n - 1)
  }

  /** The registers after those cycles. */
  function After(r: TxRegs, buf: seq<Octet>, frmLen: nat, n: nat): TxRegs
    requires |buf| == DEPTH && r.ethCount < DEPTH
    decreases n
  {
    if n == 0 then r else After(TxNext(r, buf, frmLen, false), buf, frmLen, n - 1)
  }

  /** A whole transmission: the cycle of the start pulse, then n more. */
  function Transmission(r: TxRegs, buf: seq<Octet>, frmLen: nat, n: nat): seq<Lane>
    requires |buf| == DEPTH && r.ethCount < DEPTH
  {
    var first := TxNext(r, buf, frmLen, true);
    first.out + Emitted(first, buf, frmLen, n)
  }

  /** Start pulses count only while the transmitter is idle. */
  lemma StartIsIgnoredIff(r: TxRegs, buf: seq<Octet>, frmLen: nat)
    requires |buf| == DEPTH && r.ethCount < DEPTH
    ensures TxNext(r, buf, frmLen, true) == TxNext(r, buf, frmLen, false) <==> r.cstate != TxIdle
  {}

  // ---- Receiver

  datatype Rx = Rx(frame: seq<Octet>, ethCount: nat, frmLen: nat, wrFin: bool)

  predicate ValidRx(x: Rx) { |x.frame| == DEPTH && x.ethCount <= DEPTH }

  /** One turn of the lane loop. */
  function RxLane(x: Rx, l: Lane): (r: Rx)
    requires ValidRx(x)
    ensures ValidRx(r)
  {
    if l.control && l.octet == START then Rx(x.frame[0 := 0x55], 1, 0, false)
    else if !l.control && x.ethCount <= 511 then x.(frame := x.frame[x.ethCount := l.octet], ethCount := x.ethCount + 1)
    else if l.control && l.octet == TERMINATE then x.(frmLen := Mod512(Mod512(x.ethCount) - 8), wrFin := true, ethCount := 0)
    else x
  }

  function Receive(x: Rx, lanes: seq<Lane>): (r: Rx)
    requires ValidRx(x)
    ensures ValidRx(r)
    decreases |lanes|
  {
    if lanes == [] then x else Receive(RxLane(x, lanes[0]), lanes[1..])
  }

  // ---- What a frame looks like on the lanes

  function DataLanes(data: seq<Octet>): (s: seq<Lane>)
    ensures |s| == |data|
  {
    seq(|data|, i requires 0 <= i < |data| => Lane(false, data[i]))
  }

  function IdleLanes(n: nat): (s: seq<Lane>)
    ensures |s| == n
  {
    seq(n, i => Lane(true, IDLE))
  }

  function Tail(data: seq<Octet>, idle: nat): seq<Lane> {
    DataLanes(data) + ([Lane(true, TERMINATE)] + IdleLanes(idle))
  }

  lemma TupleIsSlice(buf: seq<Octet>, octets: nat)
    requires |buf| == DEPTH && octets % 8 == 0 && octets + 8 <= DEPTH
    ensures DataTuple(buf, octets) == buf[octets..octets + 8]
  {
    assert octets / 4 * 4 == octets && (octets / 4 + 1) % 128 * 4 == octets + 4;
  }

  lemma LastWordIsTail(buf: seq<Octet>, octets: nat, rest: nat)
    requires |buf| == DEPTH && octets % 8 == 0 && octets + 8 <= DEPTH && rest < 8
    ensures LastWord(DataTuple(buf, octets), rest) == Tail(buf[octets..octets + rest], 7 - rest)
  {
    TupleIsSlice(buf, octets);
  }

  lemma DataWordIsSlice(buf: seq<Octet>, octets: nat, data: seq<Octet>, idle: nat)
    requires |buf| == DEPTH && octets % 8 == 0 && octets + 8 <= DEPTH
    ensures DataWord(DataTuple(buf, octets)) + Tail(data, idle) == Tail(buf[octets..octets + 8] + data, idle)
  {
    TupleIsSlice(buf, octets);
    assert DataLanes(buf[octets..octets + 8] + data) == DataWord(buf[octets..octets + 8]) + DataLanes(data);
  }

  /** The number of data cycles: one even for frames shorter than a word. */
  function DataCycles(frmLen: nat): nat { if frmLen < 8 then 1 else frmLen / 8 }

  /** Where the last cycle takes its octets from. The counter has wrapped after 63 data cycles. */
  function LastOffset(frmLen: nat): nat { if DataCycles(frmLen) == 63 then 0 else 8 * DataCycles(frmLen) }

  /** The octets that leave the transmitter for a frame length. */
  function Sent(buf: seq<Octet>, frmLen: nat): (s: seq<Octet>)
    requires |buf| == DEPTH && frmLen < DEPTH
    ensures |s| == if frmLen < 8 then 8 + frmLen else frmLen
    ensures 8 <= frmLen <= 504 ==> s == buf[..frmLen]
  {
    buf[..8 * DataCycles(frmLen)] + buf[LastOffset(frmLen)..LastOffset(frmLen) + frmLen % 8]
  }

  lemma LastCounter(frmLen: nat)
    requires frmLen < DEPTH
    ensures var c, o := Mod512(8 + 8 * DataCycles(frmLen)), LastOffset(frmLen);
      c < DEPTH && TxOctets(c) == o && o % 8 == 0 && o + 8 <= DEPTH
  {}

  lemma LastResidue(frmLen: nat)
    requires frmLen < DEPTH
    ensures ResLen(Mod512(8 + 8 * DataCycles(frmLen)), frmLen) == frmLen % 8
  {
    hide TxOctets, LastOffset, Mod512;
    LastCounter(frmLen);
    OffsetResidue(frmLen);
  }

  lemma OffsetResidue(frmLen: nat)
    requires frmLen < DEPTH
    ensures (frmLen - LastOffset(frmLen)) % DEPTH % 8 == frmLen % 8
  {
    hide DataCycles;
    var o := LastOffset(frmLen);
    LastCounter(frmLen);
    if frmLen >= o {
      assert (frmLen - o) % DEPTH == frmLen - o;
    } else {
      ShortFrame(frmLen);
    }
  }

  lemma ShortFrame(frmLen: nat)
    requires frmLen < LastOffset(frmLen)
    ensures frmLen < 8 && LastOffset(frmLen) == 8
  {}

  lemma LastPhase(r: TxRegs, buf: seq<Octet>, frmLen: nat)
    requires |buf| == DEPTH && frmLen < DEPTH && r.cstate == TxLast && r.ethCount == Mod512(8 + 8 * DataCycles(frmLen))
    ensures var o := LastOffset(frmLen);
      r.ethCount < DEPTH && Emitted(r, buf, frmLen, 1) == Tail(buf[o..o + frmLen % 8], 7 - frmLen % 8)
      && After(r, buf, frmLen, 1).cstate == TxIdle
  {
    hide DataTuple, LastWord, Tail, TxOctets, ResLen, Mod512, DataCycles, LastOffset;
    LastCounter(frmLen);
    LastResidue(frmLen);
    LastWordIsTail(buf, LastOffset(frmLen), frmLen % 8);
    OneCycle(r, buf, frmLen);
  }

  lemma OneCycle(r: TxRegs, buf: seq<Octet>, frmLen: nat)
    requires |buf| == DEPTH && r.ethCount < DEPTH
    ensures Emitted(r, buf, frmLen, 1) == TxNext(r, buf, frmLen, false).out
    ensures After(r, buf, frmLen, 1) == TxNext(r, buf, frmLen, false)
  {
    hide DataTuple, DataWord, LastWord, StartWord, IdleWord;
    assert Emitted(TxNext(r, buf, frmLen, false), buf, frmLen, 0) == [];
  }

  /** From the k-th data cycle on, the rest of the frame and one TERMINATE leave the transmitter. */
  lemma {:induction false} DataPhase(r: TxRegs, buf: seq<Octet>, frmLen: nat, k: nat)
    requires |buf| == DEPTH && frmLen < DEPTH && k < DataCycles(frmLen)
    requires r.cstate == TxData && r.ethCount == 8 + 8 * k
    ensures Emitted(r, buf, frmLen, DataCycles(frmLen) - k + 1) == Tail(Sent(buf, frmLen)[8 * k..], 7 - frmLen % 8)
    ensures After(r, buf, frmLen, DataCycles(frmLen) - k + 1).cstate == TxIdle
    decreases DataCycles(frmLen) - k
  {
    hide DataTuple, DataWord, LastWord, Tail, Mod512;
    var q, sent := DataCycles(frmLen), Sent(buf, frmLen);
    var next := TxNext(r, buf, frmLen, false);
    assert next.out == DataWord(DataTuple(buf, 8 * k));
    assert buf[8 * k..8 * k + 8] + sent[8 * (k + 1)..] == sent[8 * k..];
    DataWordIsSlice(buf, 8 * k, sent[8 * (k + 1)..], 7 - frmLen % 8);
    if k + 1 == q {
      assert next.cstate == TxLast;
      LastPhase(next, buf, frmLen);
      assert sent[8 * q..] == buf[LastOffset(frmLen)..LastOffset(frmLen) + frmLen % 8];
    } else {
      assert next.cstate == TxData;
      SmallMod(8 + 8 * (k + 1));
      DataPhase(next, buf, frmLen, k + 1);
    }
  }

  lemma SmallMod(x: nat)
    requires x < DEPTH
    ensures Mod512(x) == x
  {}

  /**
   * From the start pulse of an idle transmitter: one idle word, one START, the octets and one TERMINATE, and nothing
   * else, whatever the length register holds. Then the transmitter is idle again.
   */
  lemma TransmitterEmitsFrame(r: TxRegs, buf: seq<Octet>, frmLen: nat)
    requires |buf| == DEPTH && frmLen < DEPTH && r.cstate == TxIdle && r.ethCount < DEPTH
    ensures Transmission(r, buf, frmLen, DataCycles(frmLen) + 2)
         == IdleWord() + (StartWord() + Tail(Sent(buf, frmLen), 7 - frmLen % 8))
    ensures After(TxNext(r, buf, frmLen, true), buf, frmLen, DataCycles(frmLen) + 2).cstate == TxIdle
  {
    hide Tail, Sent, StartWord, IdleWord;
    SmallMod(8);
    var first := TxNext(r, buf, frmLen, true);
    assert first == TxRegs(TxFirst, 0, IdleWord());
    DataPhase(TxNext(first, buf, frmLen, false), buf, frmLen, 0);
    assert Sent(buf, frmLen)[0..] == Sent(buf, frmLen);
  }

  // ---- The receiver on such lanes

  lemma {:induction false} ReceiveConcat(x: Rx, a: seq<Lane>, b: seq<Lane>)
    requires ValidRx(x)
    ensures Receive(x, a + b) == Receive(Receive(x, a), b)
    decreases |a|
  {
    if a == [] {
      assert a + b == b;
    } else {
      assert (a + b)[1..] == a[1..] + b;
      ReceiveConcat(RxLane(x, a[0]), a[1..], b);
    }
  }

  /** Data lanes fill the buffer from the counter on, and stop at its end. */
  lemma {:induction false} ReceiveData(x: Rx, data: seq<Octet>)
    requires ValidRx(x)
    ensures var r := Receive(x, DataLanes(data));
      && r.ethCount == (if x.ethCount + |data| <= DEPTH then x.ethCount + |data| else DEPTH)
      && r.frame[..x.ethCount] == x.frame[..x.ethCount]
      && r.frame[x.ethCount..r.ethCount] == data[..r.ethCount - x.ethCount]
      && r.frmLen == x.frmLen && r.wrFin == x.wrFin
    decreases |data|
  {
    if data != [] {
      var y := RxLane(x, Lane(false, data[0]));
      assert DataLanes(data)[1..] == DataLanes(data[1..]);
      ReceiveData(y, data[1..]);
      var r := Receive(x, DataLanes(data));
      if x.ethCount < DEPTH {
        assert r.frame[..y.ethCount] == y.frame[..y.ethCount];
        assert r.frame[x.ethCount] == data[0];
        assert r.frame[x.ethCount..r.ethCount] == [data[0]] + r.frame[y.ethCount..r.ethCount];
      }
    }
  }

  lemma {:induction false} ReceiveIdle(x: Rx, n: nat)
    requires ValidRx(x)
    ensures Receive(x, IdleLanes(n)) == x
  {
    if n > 0 {
      assert IdleLanes(n)[1..] == IdleLanes(n - 1);
      ReceiveIdle(x, n - 1);
    }
  }

  lemma StartResets(x: Rx)
    requires ValidRx(x)
    ensures var y := RxLane(x, Lane(true, START)); y.ethCount == 1 && y.frame[..1] == [0x55] && y.frmLen == 0 && !y.wrFin
  {}

  lemma ReceiveStart(x: Rx)
    requires ValidRx(x)
    ensures var y := Receive(x, StartWord());
      y.ethCount == 8 && y.frame[..8] == [0x55, PREAMBLE, PREAMBLE, PREAMBLE, PREAMBLE, PREAMBLE, PREAMBLE, SFD]
      && y.frmLen == 0 && !y.wrFin
  {
    hide DataLanes, RxLane, Receive, StartWord;
    var data: seq<Octet> := [PREAMBLE, PREAMBLE, PREAMBLE, PREAMBLE, PREAMBLE, PREAMBLE, SFD];
    StartWordIsData(data);
    ReceiveConcat(x, [Lane(true, START)], DataLanes(data));
    OneLane(x, Lane(true, START));
    StartResets(x);
    var first := RxLane(x, Lane(true, START));
    ReceiveData(first, data);
    var y := Receive(first, DataLanes(data));
    assert y.frame[..8] == y.frame[..1] + y.frame[1..8];
  }

  lemma StartWordIsData(data: seq<Octet>)
    requires data == [PREAMBLE, PREAMBLE, PREAMBLE, PREAMBLE, PREAMBLE, PREAMBLE, SFD]
    ensures StartWord() == [Lane(true, START)] + DataLanes(data)
  {}

  lemma OneLane(x: Rx, l: Lane)
    requires ValidRx(x)
    ensures Receive(x, [l]) == RxLane(x, l)
  {
    assert [l][1..] == [];
  }

  function Kept(n: nat): nat { if n <= 504 then n else 504 }

  /** Whatever the receiver was doing, it latches the length and the octets between START and TERMINATE, up to 504. */
  lemma ReceiverLatchesFrame(x: Rx, data: seq<Octet>, idle: nat)
    requires ValidRx(x)
    ensures var r := Receive(x, StartWord() + Tail(data, idle));
      r.wrFin && r.frmLen == Kept(|data|) && r.frame[8..8 + r.frmLen] == data[..r.frmLen] && r.ethCount == 0
  {
    hide Receive, RxLane, StartWord, DataLanes, IdleLanes;
    ReceiveConcat(x, StartWord(), Tail(data, idle));
    ReceiveStart(x);
    var y := Receive(x, StartWord());
    ReceiveConcat(y, DataLanes(data), [Lane(true, TERMINATE)] + IdleLanes(idle));
    ReceiveData(y, data);
    var z := Receive(y, DataLanes(data));
    ReceiveConcat(z, [Lane(true, TERMINATE)], IdleLanes(idle));
    OneLane(z, Lane(true, TERMINATE));
    TerminateLatches(z);
    ReceiveIdle(RxLane(z, Lane(true, TERMINATE)), idle);
  }

  /** Up to its TERMINATE a frame has no length and is not finished, so that it raises the finished flag anew. */
  lemma FrameIsUnfinished(x: Rx, data: seq<Octet>)
    requires ValidRx(x)
    ensures var y := Receive(x, StartWord() + DataLanes(data));
      && !y.wrFin && y.frmLen == 0
      && y.frame[..8] == [0x55, PREAMBLE, PREAMBLE, PREAMBLE, PREAMBLE, PREAMBLE, PREAMBLE, SFD]
  {
    hide Receive, RxLane, StartWord, DataLanes;
    ReceiveConcat(x, StartWord(), DataLanes(data));
    ReceiveStart(x);
    ReceiveData(Receive(x, StartWord()), data);
  }

  lemma TerminateLatches(z: Rx)
    requires ValidRx(z) && z.ethCount >= 8
    ensures RxLane(z, Lane(true, TERMINATE)) == z.(frmLen := z.ethCount - 8, wrFin := true, ethCount := 0)
  {}

  lemma IdleWordIsIdle(x: Rx, rest: seq<Lane>)
    requires ValidRx(x)
    ensures Receive(x, IdleWord() + rest) == Receive(x, rest)
  {
    hide Receive;
    assert IdleWord() == IdleLanes(8);
    ReceiveIdle(x, 8);
    ReceiveConcat(x, IdleLanes(8), rest);
  }

  /** The receiver latches the length that was sent if and only if it is at least 8 and at most 504; then also the octets. */
  lemma RoundTripIff(r: TxRegs, buf: seq<Octet>, frmLen: nat, x: Rx)
    requires |buf| == DEPTH && frmLen < DEPTH && r.cstate == TxIdle && r.ethCount < DEPTH && ValidRx(x)
    ensures var y := Receive(x, Transmission(r, buf, frmLen, DataCycles(frmLen) + 2));
      && y.wrFin && (y.frmLen == frmLen <==> 8 <= frmLen <= 504)
      && (y.frmLen == frmLen ==> y.frame[8..8 + frmLen] == buf[..frmLen])
  {
    hide Receive, Transmission, StartWord, IdleWord, Tail, Sent;
    TransmitterEmitsFrame(r, buf, frmLen);
    IdleWordIsIdle(x, StartWord() + Tail(Sent(buf, frmLen), 7 - frmLen % 8));
    ReceiverLatchesFrame(x, Sent(buf, frmLen), 7 - frmLen % 8);
  }

  // ---- The length register

  /** What the software writes to send n octets: the length, and the start bit above it. */
  function LengthWord(n: nat): nat { n + 0x8000 }

  /** The nine bits that the transmitter keeps, and the bit that starts it. */
  function LengthOf(data: nat): nat { data % DEPTH }

  predicate StartOf(data: nat) { data / 0x8000 % 2 == 1 }

  /** A write starts a transmission of the length it names if and only if that length fits nine bits. */
  lemma LengthWordIff(n: nat)
    ensures StartOf(LengthWord(n)) && LengthOf(LengthWord(n)) == n <==> n < DEPTH
    ensures n < 0x8000 ==> StartOf(LengthWord(n))
  {
    assert n < 0x8000 ==> LengthWord(n) / 0x8000 == 1;
    assert LengthWord(n) % DEPTH == n % DEPTH;
  }

  /** Of a written word only the nine low bits and bit 15 count. */
  lemma OtherBitsAreIgnored(n: nat, middle: nat, start: bool, high: nat)
    requires n < DEPTH && middle < 64
    ensures var data := n + 0x200 * middle + (if start then 0x8000 else 0) + 0x1_0000 * high;
      LengthOf(data) == n && StartOf(data) == start
  {
    var data := n + 0x200 * middle + (if start then 0x8000 else 0) + 0x1_0000 * high;
    assert data / 0x8000 == 2 * high + if start then 1 else 0;
  }

  /** The lanes that follow a write to the length register of an idle transmitter. */
  function Ordered(r: TxRegs, buf: seq<Octet>, data: nat): seq<Lane>
    requires |buf| == DEPTH && r.ethCount < DEPTH
  {
    var first := TxNext(r, buf, LengthOf(data), StartOf(data));
    first.out + Emitted(first, buf, LengthOf(data), DataCycles(LengthOf(data)) + 2)
  }

  lemma OrderIsTransmission(r: TxRegs, buf: seq<Octet>, data: nat)
    requires |buf| == DEPTH && r.ethCount < DEPTH && StartOf(data)
    ensures Ordered(r, buf, data) == Transmission(r, buf, LengthOf(data), DataCycles(LengthOf(data)) + 2)
  {
    hide TxNext, Emitted, LengthOf, StartOf, DataCycles;
  }

  /** So a frame of n octets arrives if and only if n is at least 8 and at most 504. */
  lemma OrderedRoundTripIff(r: TxRegs, buf: seq<Octet>, n: nat, x: Rx)
    requires |buf| == DEPTH && n < 0x8000 && r.cstate == TxIdle && r.ethCount < DEPTH && ValidRx(x)
    ensures var y := Receive(x, Ordered(r, buf, LengthWord(n)));
      && y.wrFin && (y.frmLen == n <==> 8 <= n <= 504) && (y.frmLen == n ==> y.frame[8..8 + n] == buf[..n])
  {
    hide Receive, Ordered, LengthOf, StartOf, Sent, StartWord, IdleWord, Tail, Transmission, DataCycles, LengthWord;
    LengthWordIff(n);
    var frmLen := LengthOf(LengthWord(n));
    LengthIsShort(LengthWord(n));
    OrderIsTransmission(r, buf, LengthWord(n));
    TransmitterEmitsFrame(r, buf, frmLen);
    IdleWordIsIdle(x, StartWord() + Tail(Sent(buf, frmLen), 7 - frmLen % 8));
    ReceiverLatchesFrame(x, Sent(buf, frmLen), 7 - frmLen % 8);
  }

  lemma LengthIsShort(data: nat)
    ensures LengthOf(data) < DEPTH
  {}

  // ---- Repacking for the bus

  /** The 9-bit index of the repacking loop after n turns. */
  function RepackIndex(n: nat): nat { Mod512(8 + 4 * n) }

  /** The loop reaches its exit if and only if the frame has at most 500 octets; longer ones keep it turning for ever. */
  lemma RepackEndsIff(frmLen: nat)
    ensures (exists n: nat :: RepackIndex(n) >= frmLen + 8) <==> frmLen <= 500
  {
    assert RepackIndex(125) == 508;
    forall n: nat
      ensures RepackIndex(n) <= 508
    {
      assert (8 + 4 * n) % 4 == 0 && (8 + 4 * n) % 512 % 4 == 0;
    }
  }

  /** Whole words that hold a frame, in octets. */
  function Rounded(frmLen: nat): (n: nat)
    ensures frmLen <= n <= frmLen + 3
  {
    (frmLen + 3) / 4 * 4
  }

  /** The bus buffer after n octets of the frame have been copied. */
  function Copied(frame: seq<Octet>, n: nat, before: seq<Octet>): (s: seq<Octet>)
    requires |frame| == |before| == DEPTH && n <= 504
    ensures |s| == DEPTH && s[..n] == frame[8..8 + n]
  {
    frame[8..8 + n] + before[n..]
  }

  /** The bus buffer after the repacking loop: whole words of the frame, then what it held before. */
  function Repacked(frame: seq<Octet>, frmLen: nat, before: seq<Octet>): (s: seq<Octet>)
    requires |frame| == |before| == DEPTH && frmLen <= 500
    ensures |s| == DEPTH && s[..frmLen] == frame[8..8 + frmLen]
  {
    var s := Copied(frame, Rounded(frmLen), before);
    assert s[..frmLen] == s[..Rounded(frmLen)][..frmLen];
    s
  }

  /** One word copied from octet i of the frame to octet k of the bus buffer. */
  function WordAt(frame: seq<Octet>, i: nat, buf: seq<Octet>, k: nat): seq<Octet>
    requires |frame| == |buf| == DEPTH && i + 4 <= DEPTH && k + 4 <= DEPTH
  {
    buf[..k] + frame[i..i + 4] + buf[k + 4..]
  }

  lemma IsWordAt(frame: seq<Octet>, i: nat, buf: seq<Octet>, k: nat, after: seq<Octet>)
    requires |frame| == |buf| == |after| == DEPTH && i + 4 <= DEPTH && k + 4 <= DEPTH
    requires forall m :: 0 <= m < DEPTH ==> after[m] == if k <= m < k + 4 then frame[i + (m - k)] else buf[m]
    ensures after == WordAt(frame, i, buf, k)
  {}

  lemma NothingCopied(frame: seq<Octet>, before: seq<Octet>)
    requires |frame| == |before| == DEPTH
    ensures Copied(frame, 0, before) == before
  {}

  lemma WordIsCopied(frame: seq<Octet>, n: nat, before: seq<Octet>)
    requires |frame| == |before| == DEPTH && n <= 500
    ensures WordAt(frame, 8 + n, Copied(frame, n, before), n) == Copied(frame, n + 4, before)
  {}

  lemma RoundedUp(frmLen: nat, j: nat)
    requires frmLen <= 4 * j <= frmLen + 3
    ensures Rounded(frmLen) == 4 * j
  {}

  predicate WordIndex(i: nat) { i <= 508 && i % 4 == 0 }

  lemma FirstIndex()
    ensures WordIndex(8)
  {}

  lemma NextIndex(i: nat)
    requires WordIndex(i)
    ensures i <= 508 && WordIndex(Mod512(i + 4)) && Mod512(i + 4) == if i == 508 then 0 else i + 4
  {}

  // ---- The modules

  class TxPtpBuf {
    const wrBuf: array<Octet>
    var frmLen: nat
    var cstate: TxState
    var ethCount: nat
    var xgeTx: Word

    function Registers(): TxRegs
      reads this
    {
      TxRegs(cstate, ethCount, xgeTx)
    }

    constructor ()
      ensures Registers() == TxRegs(TxIdle, 0, IdleWord()) && wrBuf.Length == DEPTH && fresh(wrBuf)
    {
      wrBuf := new Octet[DEPTH](i => 0);
      frmLen, cstate, ethCount, xgeTx := 0, TxIdle, 0, IdleWord();
    }

    /** A bus write of the length register: for a length below the buffer's size it is kept and the start bit is up. */
    method WriteLength(data: nat) returns (start: bool)
      requires wrBuf.Length == DEPTH
      modifies this`frmLen
      ensures frmLen == LengthOf(data) && start == StartOf(data)
      ensures forall n: nat :: data == LengthWord(n) ==> (start && frmLen == n <==> n < wrBuf.Length)
    {
      frmLen := data % DEPTH;
      start := data / 0x8000 % 2 == 1;
      if data >= 0x8000 {
        LengthWordIff(data - 0x8000);
      }
    }

    method TxClock(startPul: bool)
      requires wrBuf.Length == DEPTH && ethCount < DEPTH
      modifies this`cstate, this`ethCount, this`xgeTx
      ensures Registers() == TxNext(old(Registers()), wrBuf[..], frmLen, startPul) && ethCount < DEPTH
    {
      hide DataTuple, DataWord, LastWord;
      var txOctets := TxOctets(ethCount);
      var lastP := txOctets + 16 > frmLen;
      var dataTuple := DataTuple(wrBuf[..], txOctets);
      match cstate {
        case TxIdle =>
          xgeTx, ethCount := IdleWord(), 0;
          if startPul {
            cstate := TxFirst;
          }
        case TxFirst =>
          xgeTx, ethCount := StartWord(), Mod512(ethCount + 8);
          cstate := TxData;
        case TxData =>
          xgeTx, ethCount := DataWord(dataTuple), Mod512(ethCount + 8);
          if lastP {
            cstate := TxLast;
          }
        case TxLast =>
          var resLen := ResLen(ethCount, frmLen);
          xgeTx, ethCount := LastWord(dataTuple, resLen), Mod512(ethCount + resLen);
          cstate := TxIdle;
      }
    }
  }

  class RxPtpBuf {
    const rcvdFrame: array<Octet>
    const rdBuf: array<Octet>
    var ethCount: nat
    var frmLen: nat
    var wrFin: bool

    function Registers(): Rx
      reads this, rcvdFrame
    {
      Rx(rcvdFrame[..], ethCount, frmLen, wrFin)
    }

    constructor ()
      ensures ValidRx(Registers()) && rdBuf.Length == DEPTH && rcvdFrame != rdBuf && fresh(rcvdFrame) && fresh(rdBuf)
    {
      rcvdFrame := new Octet[DEPTH](i => 0);
      rdBuf := new Octet[DEPTH](i => 0);
      ethCount, frmLen, wrFin := 0, 0, false;
    }

    /** One edge of rx_clk: the lane loop, with its assignments taking effect at once. */
    method RxClock(word: Word)
      requires ValidRx(Registers())
      modifies this, rcvdFrame
      ensures ValidRx(Registers()) && Registers() == Receive(old(Registers()), word)
    {
      var i := 0;
      while i < 8
        invariant 0 <= i <= 8 && ValidRx(Registers())
        invariant Receive(Registers(), word[i..]) == Receive(old(Registers()), word)
      {
        ghost var before := Registers();
        RxLaneClock(word[i]);
        assert word[i..][1..] == word[i + 1..];
        i := i + 1;
      }
      assert word[8..] == [];
    }

    method RxLaneClock(l: Lane)
      requires ValidRx(Registers())
      modifies this, rcvdFrame
      ensures Registers() == RxLane(old(Registers()), l)
    {
      if l.control && l.octet == START {
        ethCount, frmLen, wrFin := 0, 0, false;
        rcvdFrame[ethCount] := 0x55;
        ethCount := ethCount + 1;
      } else if !l.control && ethCount <= 511 {
        rcvdFrame[ethCount] := l.octet;
        ethCount := ethCount + 1;
      } else if l.control && l.octet == TERMINATE {
        frmLen := Mod512(Mod512(ethCount) - 8);
        wrFin := true;
        ethCount := 0;
      }
    }

    /** One turn: the word at octet i of the frame goes to word j of the bus buffer, which has 128 of them. */
    method CopyWord(j: nat, i: nat)
      requires rdBuf.Length == rcvdFrame.Length == DEPTH && rcvdFrame != rdBuf && i + 4 <= DEPTH
      modifies rdBuf
      ensures rdBuf[..] ==
        if 4 * j >= DEPTH then old(rdBuf[..]) else WordAt(rcvdFrame[..], i, old(rdBuf[..]), 4 * j)
    {
      hide WordAt;
      if j < 128 {
        rdBuf[4 * j] := rcvdFrame[i];
        rdBuf[4 * j + 1] := rcvdFrame[i + 1];
        rdBuf[4 * j + 2] := rcvdFrame[i + 2];
        rdBuf[4 * j + 3] := rcvdFrame[i + 3];
        IsWordAt(rcvdFrame[..], i, old(rdBuf[..]), 4 * j, rdBuf[..]);
      }
    }

    /**
     * At most so many turns of TO_RD_BUFF: whole words from octet 8 on, least significant octet first. Words beyond
     * the end of the bus buffer are dropped.
     */
    method ToRdBuff(turns: nat) returns (done: bool)
      requires rdBuf.Length == rcvdFrame.Length == DEPTH && rcvdFrame != rdBuf
      modifies rdBuf
      ensures turns >= 126 ==> (done <==> frmLen <= 500)
      ensures done ==> frmLen <= 500 && rdBuf[..] == Repacked(rcvdFrame[..], frmLen, old(rdBuf[..]))
    {
      hide Copied, WordAt, WordIndex, Mod512, Rounded;
      ghost var frame, before := rcvdFrame[..], rdBuf[..];
      NothingCopied(frame, before);
      assert WordIndex(8) by { FirstIndex(); }
      var j, i := 0, 8;
      while i < frmLen + 8 && j < turns
        invariant 0 <= i && WordIndex(i) && j <= turns && rcvdFrame[..] == frame
        invariant frmLen <= 500 ==> i == 8 + 4 * j <= frmLen + 11 && rdBuf[..] == Copied(frame, 4 * j, before)
        decreases turns - j
      {
        NextIndex(i);
        CopyWord(j, i);
        if frmLen <= 500 {
          WordIsCopied(frame, 4 * j, before);
        }
        j := j + 1;
        i := Mod512(i + 4);
      }
      NextIndex(i);
      done := i >= frmLen + 8;
      if done {
        RoundedUp(frmLen, j);
      }
    }
  }
}
