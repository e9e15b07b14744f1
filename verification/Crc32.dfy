/** CRC-32: the parallel step functions of rtl/inc/utils.v and the octet loop of esl/sw/dep/transport.cpp,
    both against the bit-serial register of section 3.2.9 of IEEE 802.3. */
module Crc32 {
  import opened Bits
  import opened CrcTables

  type Register = c: Bits | |c| == 32 witness seq(32, i => true)

  /** Shift one data bit into the serial register. */
  function SerialStep(c: Register, bit: bool): Register {
    seq(32, i requires 0 <= i < 32 => (i > 0 && c[i - 1]) != (Polynomial(i) && c[31] != bit))
  }

  /** Shift data in, its most significant bit first. */
  function Serial(c: Register, data: Bits): Register
  {
    if data == [] then c else SerialStep(Serial(c, data[1..]), data[0])
  }

  lemma {:induction false} SerialConcat(c: Register, x: Bits, y: Bits)
    ensures Serial(c, x + y) == Serial(Serial(c, y), x)
  {
    if x == [] {
      assert x + y == y;
    } else {
      assert (x + y)[1..] == x[1..] + y;
      SerialConcat(c, x[1..], y);
    }
  }

  // ---- Selections of bits by a mask

  /** The exclusive or of the bits of x that the mask selects. */
  function Dot(m: Mask, x: Bits): bool
    decreases x
  {
    if x == [] then false else (Odd(m) && x[0]) != Dot(Half(m), x[1..])
  }

  function Halves(m: Mask, n: nat): Mask
    decreases n
  {
    if n == 0 then m else Halves(Half(m), n - 1)
  }

  /** The k lowest bits of m are all ones. */
  predicate Covers(m: Mask, k: nat)
    decreases k
  {
    k == 0 || (Odd(m) && Covers(Half(m), k - 1))
  }

  lemma {:induction false} DotXor(a: Mask, b: Mask, x: Bits)
    ensures Dot(Xor(a, b), x) == (Dot(a, x) != Dot(b, x))
    decreases x
  {
    hide Half, Odd, Xor;
    if x != [] {
      HalfXor(a, b);
      OddXor(a, b);
      DotXor(Half(a), Half(b), x[1..]);
    }
  }

  lemma {:induction false} DotZero(x: Bits)
    ensures !Dot(0, x)
  {
    if x != [] {
      DotZero(x[1..]);
    }
  }

  lemma {:induction false} DotCovered(m: Mask, cover: Mask, x: Bits)
    requires Covers(cover, |x|)
    ensures Dot(And(m, cover), x) == Dot(m, x)
    decreases x
  {
    hide Half, Odd, And;
    if x != [] {
      HalfAnd(m, cover);
      OddAnd(m, cover);
      DotCovered(Half(m), Half(cover), x[1..]);
    }
  }

  lemma {:induction false} CoversLess(m: Mask, k: nat, j: nat)
    requires Covers(m, k) && j <= k
    ensures Covers(m, j)
    decreases k
  {
    hide Half, Odd;
    if j > 0 {
      CoversLess(Half(m), k - 1, j - 1);
    }
  }

  lemma {:induction false} CoversHalves(m: Mask, n: nat, k: nat)
    requires Covers(m, n + k)
    ensures Covers(Halves(m, n), k)
    decreases n
  {
    hide Half, Odd;
    if n > 0 {
      CoversHalves(Half(m), n - 1, k);
    }
  }

  lemma {:induction false} HalvesXorAnd(a: Mask, b: Mask, c: Mask, n: nat)
    ensures Halves(And(Xor(a, b), c), n) == And(Xor(Halves(a, n), Halves(b, n)), Halves(c, n))
    decreases n
  {
    hide Half, Xor, And;
    if n > 0 {
      HalfAnd(Xor(a, b), c);
      HalfXor(a, b);
      HalvesXorAnd(Half(a), Half(b), Half(c), n - 1);
    }
  }

  lemma {:induction false} HalvesZero(n: nat)
    ensures Halves(0, n) == 0
  {
    if n > 0 {
      HalvesZero(n - 1);
    }
  }

  lemma {:induction false} HalvesAdd(m: Mask, a: nat, b: nat)
    ensures Halves(m, a + b) == Halves(Halves(m, a), b)
    decreases a
  {
    hide Half;
    if a > 0 {
      HalvesAdd(Half(m), a - 1, b);
    }
  }

  lemma QuarterHalf(m: Mask)
    ensures Half(Half(m)) == Quarter(m)
  {}

  lemma NibbleQuarter(m: Mask)
    ensures Quarter(Quarter(m)) == Nibble(m)
  {}

  lemma OctaveNibble(m: Mask)
    ensures Nibble(Nibble(m)) == Octave(m)
  {}

  lemma HalvesNibble(m: Mask)
    ensures Halves(m, 4) == Nibble(m)
  {
    hide Half, Quarter, Nibble;
    assert Halves(m, 4) == Halves(Half(Half(m)), 2) == Half(Half(Half(Half(m))));
    QuarterHalf(m);
    QuarterHalf(Quarter(m));
    NibbleQuarter(m);
  }

  lemma HalvesOctet(m: Mask, n: nat)
    ensures Halves(m, n + 8) == Halves(Octave(m), n)
  {
    hide Half, Halves, Nibble, Octave;
    HalvesAdd(m, 4, n + 4);
    HalvesNibble(m);
    HalvesAdd(Nibble(m), 4, n);
    HalvesNibble(Nibble(m));
    OctaveNibble(m);
  }

  lemma HalvesNone(m: Mask)
    ensures Halves(m, 0) == m
  {}

  lemma HalvesOne(m: Mask)
    ensures Halves(m, 1) == Half(m)
  {
    hide Half;
    assert Halves(m, 1) == Halves(Half(m), 0);
  }

  /** Whole octets at once. */
  lemma {:induction false} HalvesOctets(m: Mask, n: nat)
    requires n <= 8
    ensures Halves(m, 8 * n) == Octaves(m, n)
  {
    hide Half, Halves, Octave, Octaves;
    if n == 0 {
      HalvesNone(m);
      Octaves0(m);
    } else {
      HalvesOctets(m, n - 1);
      OctavesNext(m, n - 1);
      HalvesAdd(m, 8 * (n - 1), 8);
      HalvesOctet(Octaves(m, n - 1), 0);
      HalvesNone(Octaves(m, n));
    }
  }

  lemma CoversOctet(m: Mask, k: nat)
    requires m & 0xFF == 0xFF && Covers(m >> 8, k)
    ensures Covers(m, k + 8)
  {
    assert Covers(m >> 6, k + 2);
    assert Covers(m >> 4, k + 4);
    assert Covers(m >> 2, k + 6);
  }

  lemma CoversLiterals()
    ensures Covers(LOW32, 32)
    ensures Covers(LowOctets(1), 8) && Covers(LowOctets(2), 16) && Covers(LowOctets(3), 24) && Covers(LowOctets(4), 32)
    ensures Covers(LowOctets(5), 40) && Covers(LowOctets(6), 48) && Covers(LowOctets(7), 56) && Covers(LowOctets(8), 64)
    ensures Covers(LOW95, 95)
  {
    CoversOctet(0xFF, 0);
    CoversOctet(0xFFFF, 8);
    CoversOctet(0xFF_FFFF, 16);
    CoversOctet(LOW32, 24);
    CoversOctet(0xFF_FFFF_FFFF, 32);
    CoversOctet(0xFFFF_FFFF_FFFF, 40);
    CoversOctet(0xFF_FFFF_FFFF_FFFF, 48);
    CoversOctet(0xFFFF_FFFF_FFFF_FFFF, 56);
    assert Covers(0x7F, 7);
    CoversOctet(0x7FFF, 7);
    CoversOctet(0x7F_FFFF, 15);
    CoversOctet(0x7FFF_FFFF, 23);
    CoversOctet(0x7F_FFFF_FFFF, 31);
    CoversOctet(0x7FFF_FFFF_FFFF, 39);
    CoversOctet(0x7F_FFFF_FFFF_FFFF, 47);
    CoversOctet(0x7FFF_FFFF_FFFF_FFFF, 55);
    CoversOctet(0x7F_FFFF_FFFF_FFFF_FFFF, 63);
    CoversOctet(0x7FFF_FFFF_FFFF_FFFF_FFFF, 71);
    CoversOctet(0x7F_FFFF_FFFF_FFFF_FFFF_FFFF, 79);
    CoversOctet(LOW95, 87);
  }

  // ---- The tables against the serial register

  lemma DotWindow(a: Mask, b: Mask, n: nat, x: Bits)
    requires n + |x| <= 95
    ensures Dot(Halves(And(Xor(a, b), LOW95), n), x) == (Dot(Halves(a, n), x) != Dot(Halves(b, n), x))
  {
    hide Half, Odd, Xor, And, Halves, Dot, Covers;
    HalvesXorAnd(a, b, LOW95, n);
    CoversLiterals();
    CoversLess(LOW95, 95, n + |x|);
    CoversHalves(LOW95, n, |x|);
    DotCovered(Xor(Halves(a, n), Halves(b, n)), Halves(LOW95, n), x);
    DotXor(Halves(a, n), Halves(b, n), x);
  }

  lemma DotNothing(n: nat, x: Bits)
    ensures !Dot(Halves(0, n), x)
  {
    HalvesZero(n);
    DotZero(x);
  }

  lemma HalvesNext(m: Mask, n: nat)
    ensures Halves(m, n + 1) == Halves(Half(m), n)
  {}

  /** One more shift of the coefficient rows, seen through any selection. */
  lemma Advance(i: nat, n: nat, x: Bits)
    requires i < 32 && n + |x| <= 95
    ensures Dot(Halves(Residues(i), n + 1), x)
         == ((i > 0 && Dot(Halves(Residues(i - 1), n), x)) != (Polynomial(i) && Dot(Halves(Residues(31), n), x)))
  {
    hide Half, Odd, Xor, And, Halves, Dot, Residues, Polynomial;
    HalvesNext(Residues(i), n);
    AllRecurrences(i);
    DotWindow(Below(i), Fed(i), n, x);
    DotNothing(n, x);
  }

  /** The coefficient rows of the powers below 32 select single register bits. */
  lemma {:induction false} UnitRow(i: nat, x: Bits)
    requires i < 32 && i < |x|
    ensures Dot(And(Residues(i), LOW32), x) == x[i]
  {
    hide Half, Odd, Xor, Octave, Residues;
    AllRecurrences(i);
    if i == 0 {
      assert And(0, LOW32) == 0;
      DotZero(x[1..]);
    } else {
      UnitRow(i - 1, x[1..]);
    }
  }

  lemma SelectsNothing(c: Register, m: Mask, h: Mask)
    ensures Serial(c, []) == c && Halves(m, 0) == m && !Dot(h, [])
  {}

  lemma SerialNext(c: Register, data: Bits, i: nat)
    requires i < 32 && data != []
    ensures var before := Serial(c, data[1..]);
      Serial(c, data)[i] == ((i > 0 && before[i - 1]) != (Polynomial(i) && before[31] != data[0]))
  {}

  /** What the serial register holds after |data| shifts, as a selection of old register and data bits. */
  lemma {:induction false} SerialSelects(c: Register, data: Bits, i: nat)
    requires i < 32 && |data| <= 64
    ensures Serial(c, data)[i] == (Dot(Halves(Residues(i), |data|), c) != Dot(Halves(Residues(i), 32), data))
    decreases data
  {
    hide Half, Odd, And, Halves, Dot, Residues, Polynomial, Serial;
    if data == [] {
      SelectsNothing(c, Residues(i), Halves(Residues(i), 32));
      UnitRow(i, c);
      CoversLiterals();
      DotCovered(Residues(i), LOW32, c);
    } else {
      var rest := data[1..];
      if i > 0 {
        SerialSelects(c, rest, i - 1);
      }
      SerialSelects(c, rest, 31);
      Advance(i, |rest|, c);
      Advance(i, 32, rest);
      DataBit(i, data);
      SerialNext(c, data, i);
    }
  }

  lemma DataBit(i: nat, data: Bits)
    requires i < 32 && data != []
    ensures Dot(Halves(Residues(i), 32), data) == ((Polynomial(i) && data[0]) != Dot(Halves(Residues(i), 33), data[1..]))
  {
    hide Half, Odd, And, Xor, Halves, Octaves, Residues, Polynomial;
    var r := Residues(i);
    HalvesAdd(r, 32, 1);
    HalvesOne(Halves(r, 32));
    HalvesOctets(r, 4);
    DataCoefficient(i);
  }

  // ---- The parallel step functions

  /** nextCRC32_D8 .. nextCRC32_D64. */
  function NextCrc(lanes: nat, data: Bits, c: Register): Register
    requires 1 <= lanes <= 8 && |data| == 8 * lanes
  {
    seq(32, i requires 0 <= i < 32 => Dot(Row(lanes, i).q, c) != Dot(Row(lanes, i).d, data))
  }

  lemma CoversOctets(lanes: nat)
    requires 1 <= lanes <= 8
    ensures Covers(LowOctets(lanes), 8 * lanes)
  {
    hide Covers, LowOctets;
    CoversLiterals();
    assert lanes in {1, 2, 3, 4, 5, 6, 7, 8};
  }

  lemma CoversRegister()
    ensures Covers(LOW32, 32)
  {
    hide Covers;
    CoversLiterals();
  }

  lemma RowWindow(lanes: nat, i: nat)
    requires 1 <= lanes <= 8 && i < 32
    ensures Row(lanes, i).q == And(Halves(Residues(i), 8 * lanes), LOW32)
    ensures Row(lanes, i).d == And(Halves(Residues(i), 32), LowOctets(lanes))
  {
    hide Halves, Octaves, And, Residues, Row, LowOctets;
    RowIsWindow(lanes, i);
    HalvesOctets(Residues(i), lanes);
    HalvesOctets(Residues(i), 4);
  }

  /** Each of the eight hand-expanded functions is 8 * lanes steps of the serial register. */
  lemma NextCrcIsSerial(lanes: nat, data: Bits, c: Register)
    requires 1 <= lanes <= 8 && |data| == 8 * lanes
    ensures NextCrc(lanes, data, c) == Serial(c, data)
  {
    forall i | 0 <= i < 32 ensures NextCrc(lanes, data, c)[i] == Serial(c, data)[i] {
      hide Dot, And, Covers, Residues, Row, LowOctets, Halves, Serial;
      RowWindow(lanes, i);
      SerialSelects(c, data, i);
      CoversRegister();
      CoversOctets(lanes);
      DotCovered(Halves(Residues(i), 8 * lanes), LOW32, c);
      DotCovered(Halves(Residues(i), 32), LowOctets(lanes), data);
    }
  }

  // ---- XGMII words, cut out of a frame in any way

  /** xgeCalculateCRC: lane j of the 64-bit word is bits 8j .. 8j + 7; other lane counts leave the register alone. */
  function XgeCalculateCrc(data: Bits, laneNum: nat, c: Register): Register
    requires |data| == 64
  {
    if 1 <= laneNum <= 8 then NextCrc(laneNum, Reversed(data[..8 * laneNum]), c) else c
  }

  /** Eight bits in wire order, as the software loop feeds them: reverse_8b, then nextCRC32_D8. */
  function OctetStep(c: Register, octet: Bits): Register
    requires |octet| == 8
  {
    NextCrc(1, Reversed(octet), c)
  }

  function LaneSteps(c: Register, data: Bits, lanes: nat): Register
    requires 8 * lanes <= |data|
  {
    if lanes == 0 then c else OctetStep(LaneSteps(c, data, lanes - 1), data[8 * lanes - 8..8 * lanes])
  }

  lemma {:induction false} LaneStepsSerial(c: Register, data: Bits, lanes: nat)
    requires 8 * lanes <= |data|
    ensures LaneSteps(c, data, lanes) == Serial(c, Reversed(data[..8 * lanes]))
  {
    hide NextCrc;
    if lanes > 0 {
      var before, last := data[..8 * lanes - 8], data[8 * lanes - 8..8 * lanes];
      LaneStepsSerial(c, data, lanes - 1);
      NextCrcIsSerial(1, Reversed(last), LaneSteps(c, data, lanes - 1));
      assert data[..8 * lanes] == before + last;
      ReversedConcat(before, last);
      SerialConcat(c, Reversed(last), Reversed(before));
    }
  }

  /** A wide step is the same as its lanes fed one octet at a time, lane 0 first. */
  lemma WideStepIsLaneSteps(data: Bits, laneNum: nat, c: Register)
    requires |data| == 64 && 1 <= laneNum <= 8
    ensures XgeCalculateCrc(data, laneNum, c) == LaneSteps(c, data, laneNum)
  {
    hide NextCrc;
    NextCrcIsSerial(laneNum, Reversed(data[..8 * laneNum]), c);
    LaneStepsSerial(c, data, laneNum);
  }

  /** A 64-bit bus word of which the first lanes carry frame octets; the other lanes are don't-cares. */
  datatype BusWord = BusWord(data: Bits, lanes: nat)

  predicate WellFormed(words: seq<BusWord>) {
    forall w | w in words :: |w.data| == 64 && 1 <= w.lanes <= 8
  }

  function WordFold(c: Register, words: seq<BusWord>): Register
    requires WellFormed(words)
    decreases words
  {
    if words == [] then c
    else WordFold(XgeCalculateCrc(words[0].data, words[0].lanes, c), words[1..])
  }

  function OctetFold(c: Register, frame: seq<Octet>): Register
  {
    if frame == [] then c else OctetStep(OctetFold(c, frame[..|frame| - 1]), ToBits(frame[|frame| - 1], 8))
  }

  lemma {:induction false} OctetFoldConcat(c: Register, a: seq<Octet>, b: seq<Octet>)
    ensures OctetFold(c, a + b) == OctetFold(OctetFold(c, a), b)
  {
    hide OctetStep;
    if b == [] {
      assert a + b == a;
    } else {
      assert (a + b)[..|a + b| - 1] == a + b[..|b| - 1];
      OctetFoldConcat(c, a, b[..|b| - 1]);
    }
  }

  function LaneOctet(data: Bits, j: nat): Octet
    requires |data| == 64 && j < 8
  {
    var b := data[8 * j..8 * j + 8];
    assert Pow2(8) == 256;
    FromBits(b)
  }

  function LaneOctets(w: BusWord): seq<Octet>
    requires |w.data| == 64 && w.lanes <= 8
  {
    seq(w.lanes, j requires 0 <= j < w.lanes => LaneOctet(w.data, j))
  }

  lemma {:induction false} LaneStepsFold(c: Register, data: Bits, lanes: nat)
    requires |data| == 64 && lanes <= 8
    ensures LaneSteps(c, data, lanes) == OctetFold(c, LaneOctets(BusWord(data, lanes)))
  {
    hide OctetStep;
    if lanes > 0 {
      var octets := LaneOctets(BusWord(data, lanes));
      assert octets[..lanes - 1] == LaneOctets(BusWord(data, lanes - 1));
      LaneStepsFold(c, data, lanes - 1);
      ToFromBits(data[8 * lanes - 8..8 * lanes]);
      assert octets[lanes - 1] == LaneOctet(data, lanes - 1);
    }
  }

  function Contents(words: seq<BusWord>): seq<Octet>
    requires WellFormed(words)
  {
    if words == [] then [] else LaneOctets(words[0]) + Contents(words[1..])
  }

  /** However a frame is cut into bus words, the wide hardware steps end in the register of the software octet loop. */
  lemma {:induction false} AnyCutting(c: Register, words: seq<BusWord>)
    requires WellFormed(words)
    ensures WordFold(c, words) == OctetFold(c, Contents(words))
    decreases words
  {
    hide XgeCalculateCrc, LaneSteps, LaneOctets, OctetFold;
    if words == [] {
      assert OctetFold(c, []) == c by { OctetFoldEmpty(c); }
    } else {
      var w := words[0];
      WideStepIsLaneSteps(w.data, w.lanes, c);
      LaneStepsFold(c, w.data, w.lanes);
      OctetFoldConcat(c, LaneOctets(w), Contents(words[1..]));
      AnyCutting(XgeCalculateCrc(w.data, w.lanes, c), words[1..]);
    }
  }

  lemma OctetFoldEmpty(c: Register)
    ensures OctetFold(c, []) == c
  {}

  // ---- The frame check sequence

  const ONES: Register := AllTrue(32)

  const ZEROS: Register := Inverted(AllTrue(32))

  function AllTrue(n: nat): (b: Bits)
    ensures |b| == n && forall i | 0 <= i < n :: b[i]
  {
    seq(n, i => true)
  }

  /** The check sequence as calculate_crc returns it. */
  function Fcs(frame: seq<Octet>): (r: nat)
    ensures r < Pow2(32)
  {
    FromBits(Inverted(Reversed(OctetFold(ONES, frame))))
  }

  /** The four octets of the check sequence, least significant first, as assemble_frame appends them. */
  function FcsOctets(frame: seq<Octet>): seq<Octet>
  {
    var f := Inverted(Reversed(OctetFold(ONES, frame)));
    assert Pow2(8) == 256;
    [FromBits(f[..8]), FromBits(f[8..16]), FromBits(f[16..24]), FromBits(f[24..])]
  }

  lemma {:induction false} DotSplit(m: Mask, x: Bits, k: nat)
    requires k <= |x|
    ensures Dot(m, x) == (Dot(m, x[..k]) != Dot(Halves(m, k), x[k..]))
    decreases k
  {
    hide Half, Odd;
    if k == 0 {
      HalvesNone(m);
      assert x[0..] == x;
    } else {
      DotSplit(Half(m), x[1..], k - 1);
      assert x[1..][..k - 1] == x[..k][1..] && x[1..][k - 1..] == x[k..];
    }
  }

  lemma DotFold(m: Mask, x: Bits, half: Bits, k: nat)
    requires |half| == k && x == half + half
    ensures Dot(m, x) == Dot(Xor(m, Halves(m, k)), half)
  {
    hide Half, Odd, Xor;
    DotSplit(m, x, k);
    assert x[..k] == half && x[k..] == half;
    DotXor(m, Halves(m, k), half);
  }

  lemma DotAllTrue(m: Mask)
    ensures Dot(m, AllTrue(32)) == Parity(m)
  {
    hide Half, Odd, Xor, Octave, Octaves, Nibble, Quarter, Halves, Dot;
    var m1 := Fold16(m);
    var m2 := Fold8(m1);
    var m3 := Fold4(m2);
    var m4 := Fold2(m3);
    DotFold(m, AllTrue(32), AllTrue(16), 16);
    HalvesOctets(m, 2);
    DotFold(m1, AllTrue(16), AllTrue(8), 8);
    HalvesOctets(m1, 1);
    Octaves0(m1);
    Octaves1(m1);
    DotFold(m2, AllTrue(8), AllTrue(4), 4);
    HalvesNibble(m2);
    DotFold(m3, AllTrue(4), AllTrue(2), 2);
    HalvesQuarter(m3);
    DotFold(m4, AllTrue(2), AllTrue(1), 1);
    HalvesOne(m4);
    DotOne(Fold1(m4), AllTrue(1));
  }

  lemma HalvesQuarter(m: Mask)
    ensures Halves(m, 2) == Quarter(m)
  {
    hide Half, Quarter;
    assert Halves(m, 2) == Halves(Half(m), 1) == Half(Half(m));
    QuarterHalf(m);
  }

  lemma DotOne(m: Mask, x: Bits)
    requires |x| == 1 && x[0]
    ensures Dot(m, x) == Odd(m)
  {}

  lemma {:induction false} DotZeros(m: Mask, x: Bits)
    requires forall i | 0 <= i < |x| :: !x[i]
    ensures !Dot(m, x)
    decreases x
  {
    if x != [] {
      DotZeros(Half(m), x[1..]);
    }
  }

  predicate IsGoodFrame(c: Register) {
    forall i | 0 <= i < 32 :: c[i] == GoodFrame(i)
  }

  lemma OnesIntoZeros()
    ensures IsGoodFrame(Serial(ZEROS, AllTrue(32)))
  {
    hide Parity, Residues, Dot, Serial, GoodFrame, D32;
    NextCrcIsSerial(4, AllTrue(32), ZEROS);
    forall i | 0 <= i < 32 ensures Serial(ZEROS, AllTrue(32))[i] == GoodFrame(i) {
      DotZeros(Row(4, i).q, ZEROS);
      DotAllTrue(Row(4, i).d);
      AllOnesRows(i);
    }
  }

  /** Feeding the complement of the register's own top bits: the register itself cancels out. */
  lemma {:induction false} SelfFeed(c: Register, n: nat, i: nat)
    requires n <= 32 && i < 32
    ensures Serial(c, Inverted(c)[32 - n..])[i] == ((i >= n && c[i - n]) != Serial(ZEROS, AllTrue(n))[i])
    decreases n
  {
    hide Serial, Polynomial;
    if n == 0 {
      SerialNothing(c, Inverted(c)[32..]);
      SerialNothing(ZEROS, AllTrue(0));
    } else {
      SelfFeed(c, n - 1, 31);
      if i > 0 {
        SelfFeed(c, n - 1, i - 1);
      }
      SelfFeedTails(c, n);
      SerialNext(c, Inverted(c)[32 - n..], i);
      SerialNext(ZEROS, AllTrue(n), i);
    }
  }

  lemma SerialNothing(c: Register, data: Bits)
    requires data == []
    ensures Serial(c, data) == c
  {}

  lemma SelfFeedTails(c: Register, n: nat)
    requires 0 < n <= 32
    ensures Inverted(c)[32 - n..][1..] == Inverted(c)[32 - (n - 1)..] && Inverted(c)[32 - n..][0] == !c[32 - n]
    ensures AllTrue(n)[1..] == AllTrue(n - 1) && AllTrue(n)[0]
  {}

  lemma CheckSequenceFolds(frame: seq<Octet>)
    ensures OctetFold(ONES, frame + FcsOctets(frame)) == Serial(OctetFold(ONES, frame), Inverted(OctetFold(ONES, frame)))
  {
    hide OctetStep, OctetFold, Serial;
    var c := OctetFold(ONES, frame);
    var f := Inverted(Reversed(c));
    var o := FcsOctets(frame);
    OctetFoldConcat(ONES, frame, o);
    FourOctets(c, f);
    assert Reversed(f) == Inverted(c);
  }

  lemma FourOctets(c: Register, f: Bits)
    requires |f| == 32
    ensures Pow2(8) == 256
    ensures OctetFold(c, [FromBits(f[..8]), FromBits(f[8..16]), FromBits(f[16..24]), FromBits(f[24..])]) == Serial(c, Reversed(f))
  {
    hide OctetStep, NextCrc, Serial;
    assert Pow2(8) == 256;
    var o: seq<Octet> := [FromBits(f[..8]), FromBits(f[8..16]), FromBits(f[16..24]), FromBits(f[24..])];
    assert o[..3] == o[..2] + [o[2]] && o[..2] == [o[0]] + [o[1]] && o[..3][..2] == o[..2] && o[..2][..1] == [o[0]];
    ToFromBits(f[..8]);
    ToFromBits(f[8..16]);
    ToFromBits(f[16..24]);
    ToFromBits(f[24..]);
    LaneStepsFold32(c, f, o);
    LaneStepsSerial(c, f, 4);
    assert f[..32] == f;
  }

  lemma LaneStepsFold32(c: Register, f: Bits, o: seq<Octet>)
    requires |f| == 32 && |o| == 4
    requires forall j | 0 <= j < 4 :: ToBits(o[j], 8) == f[8 * j..8 * j + 8]
    ensures OctetFold(c, o) == LaneSteps(c, f, 4)
  {
    hide OctetStep;
    LanePrefix(c, f, o, 4);
    assert o[..4] == o;
  }

  lemma {:induction false} LanePrefix(c: Register, f: Bits, o: seq<Octet>, n: nat)
    requires |f| == 32 && |o| == 4 && n <= 4
    requires forall j | 0 <= j < 4 :: ToBits(o[j], 8) == f[8 * j..8 * j + 8]
    ensures OctetFold(c, o[..n]) == LaneSteps(c, f, n)
  {
    hide OctetStep;
    if n > 0 {
      assert o[..n][..n - 1] == o[..n - 1];
      LanePrefix(c, f, o, n - 1);
    }
  }

  /** Whatever the frame, the register after its own check sequence is one constant... */
  lemma CheckedRegister(frame: seq<Octet>)
    ensures IsGoodFrame(OctetFold(ONES, frame + FcsOctets(frame)))
  {
    hide OctetFold, Serial, GoodFrame;
    var c := OctetFold(ONES, frame);
    CheckSequenceFolds(frame);
    OnesIntoZeros();
    forall i | 0 <= i < 32 ensures Serial(c, Inverted(c))[i] == GoodFrame(i) {
      SelfFeed(c, 32, i);
      assert Inverted(c)[0..] == Inverted(c);
    }
  }

  function Scaled(k: nat, n: nat): nat
  {
    if k == 0 then n else 2 * Scaled(k - 1, n)
  }

  lemma {:induction false} FromBitsSplit(b: Bits, k: nat)
    requires k <= |b|
    ensures FromBits(b) == FromBits(b[..k]) + Scaled(k, FromBits(b[k..]))
  {
    if k == 0 {
      assert b[0..] == b;
    } else {
      FromBitsSplit(b[1..], k - 1);
      assert b[1..][..k - 1] == b[..k][1..] && b[1..][k - 1..] == b[k..];
    }
  }

  lemma OctetSplit(b: Bits)
    requires 8 <= |b|
    ensures FromBits(b) == FromBits(b[..8]) + 256 * FromBits(b[8..])
  {
    hide FromBits, Scaled;
    FromBitsSplit(b, 8);
    Scaled8(FromBits(b[8..]));
  }

  lemma Scaled8(n: nat)
    ensures Scaled(8, n) == 256 * n
  {
    assert Scaled(1, n) == 2 * n;
    assert Scaled(3, n) == 8 * n;
    assert Scaled(5, n) == 32 * n;
    assert Scaled(7, n) == 128 * n;
  }

  lemma EightBits(b: Bits)
    requires |b| == 8
    ensures FromBits(b) == (if b[0] then 1 else 0) + (if b[1] then 2 else 0) + (if b[2] then 4 else 0) + (if b[3] then 8 else 0)
      + (if b[4] then 16 else 0) + (if b[5] then 32 else 0) + (if b[6] then 64 else 0) + (if b[7] then 128 else 0)
  {
    hide FromBits;
    var b1, b2, b3 := b[1..], b[2..], b[3..];
    var b4, b5, b6, b7 := b[4..], b[5..], b[6..], b[7..];
    assert b1[1..] == b2 && b2[1..] == b3 && b3[1..] == b4 && b4[1..] == b5 && b5[1..] == b6 && b6[1..] == b7;
    FirstBit(b);
    FirstBit(b1);
    FirstBit(b2);
    FirstBit(b3);
    FirstBit(b4);
    FirstBit(b5);
    FirstBit(b6);
    FirstBit(b7);
    NoBits(b7[1..]);
  }

  lemma FirstBit(b: Bits)
    requires b != []
    ensures FromBits(b) == (if b[0] then 1 else 0) + 2 * FromBits(b[1..])
  {}

  lemma NoBits(b: Bits)
    requires b == []
    ensures FromBits(b) == 0
  {}

  /** ... and so is the value calculate_crc returns for it. */
  lemma FcsResidue(frame: seq<Octet>)
    ensures Fcs(frame + FcsOctets(frame)) == 0x2144_DF1C
  {
    hide OctetFold, FromBits, GoodFrame;
    CheckedRegister(frame);
    var c := OctetFold(ONES, frame + FcsOctets(frame));
    var f := Inverted(Reversed(c));
    assert forall i | 0 <= i < 32 :: f[i] == !GoodFrame(31 - i);
    WordValue(f);
    GoodFrameOctets(f);
  }

  lemma WordValue(f: Bits)
    requires |f| == 32
    ensures FromBits(f) == FromBits(f[..8]) + 0x100 * FromBits(f[8..16]) + 0x1_0000 * FromBits(f[16..24]) + 0x100_0000 * FromBits(f[24..])
  {
    hide FromBits;
    OctetSplit(f);
    OctetSplit(f[8..]);
    OctetSplit(f[16..]);
    assert f[8..][8..] == f[16..] && f[16..][8..] == f[24..] && f[8..][..8] == f[8..16] && f[16..][..8] == f[16..24];
  }

  lemma GoodFrameOctets(f: Bits)
    requires |f| == 32 && forall i | 0 <= i < 32 :: f[i] == !GoodFrame(31 - i)
    ensures FromBits(f[..8]) == 0x1C && FromBits(f[8..16]) == 0xDF
    ensures FromBits(f[16..24]) == 0x44 && FromBits(f[24..]) == 0x21
  {
    hide FromBits;
    EightBits(f[..8]);
    EightBits(f[8..16]);
    EightBits(f[16..24]);
    EightBits(f[24..]);
  }

  // ---- The software loops of esl/sw/dep/transport.cpp

  /** reverse_8b (width 8) and reverse_32b (width 32). */
  method ReverseBits(data: nat, width: nat) returns (reverse: nat)
    ensures reverse == FromBits(Reversed(ToBits(data, width)))
  {
    var ra := new bool[width];
    for i := 0 to width
      invariant forall k | 0 <= k < i :: ra[k] == Reversed(ToBits(data, width))[k]
    {
      var shift := width - 1 - i;
      ra[i] := Shr(data, shift) % 2 == 1;
      ToBitsAt(data, width, shift);
    }
    reverse := PackBits(ra);
    assert ra[..] == Reversed(ToBits(data, width));
  }

  /** The loop that ors the bits of an array into a number. */
  method PackBits(bits: array<bool>) returns (n: nat)
    ensures n == FromBits(bits[..])
  {
    n := 0;
    for i := 0 to bits.Length
      invariant n == FromBits(bits[..i])
    {
      assert bits[..i + 1] == bits[..i] + [bits[i]];
      FromBitsAppend(bits[..i], bits[i]);
      n := n + if bits[i] then Pow2(i) else 0;
    }
    assert bits[..bits.Length] == bits[..];
  }

  method UnpackBits(n: nat, width: nat) returns (bits: array<bool>)
    ensures fresh(bits) && bits[..] == ToBits(n, width)
  {
    bits := new bool[width];
    for i := 0 to width
      invariant forall k | 0 <= k < i :: bits[k] == ToBits(n, width)[k]
    {
      bits[i] := Shr(n, i) % 2 == 1;
      ToBitsAt(n, width, i);
    }
  }

  /** transport::nextCRC32_D8: 32 output bits, each from the taps of its row. */
  method NextCrc32D8(data: Octet, currentCrc: nat) returns (nextCrc: nat)
    ensures nextCrc == FromBits(NextCrc(1, ToBits(data, 8), ToBits(currentCrc, 32)))
  {
    hide D8, Dot, Odd, Half;
    var dataIn := UnpackBits(data, 8);
    var lfsrQ := UnpackBits(currentCrc, 32);
    var lfsrC := new bool[32];
    for i := 0 to 32
      invariant dataIn[..] == ToBits(data, 8) && lfsrQ[..] == ToBits(currentCrc, 32)
      invariant forall k | 0 <= k < i :: lfsrC[k] == NextCrc(1, ToBits(data, 8), ToBits(currentCrc, 32))[k]
    {
      lfsrC[i] := Dot(D8(i).q, lfsrQ[..]) != Dot(D8(i).d, dataIn[..]);
    }
    nextCrc := PackBits(lfsrC);
    assert lfsrC[..] == NextCrc(1, ToBits(data, 8), ToBits(currentCrc, 32));
  }

  lemma {:induction false} InvertedValue(b: Bits)
    ensures FromBits(Inverted(b)) == Pow2(|b|) - 1 - FromBits(b)
  {
    if b != [] {
      assert Inverted(b)[1..] == Inverted(b[1..]);
      InvertedValue(b[1..]);
    }
  }

  /** One turn of the octet loop on numbers is one OctetStep on registers. */
  lemma OctetLoopStep(frame: seq<Octet>, i: nat)
    requires i < |frame|
    ensures var before := OctetFold(ONES, frame[..i]);
      var reversed := FromBits(Reversed(ToBits(frame[i], 8)));
      FromBits(NextCrc(1, ToBits(reversed, 8), ToBits(FromBits(before), 32))) == FromBits(OctetFold(ONES, frame[..i + 1]))
  {
    hide NextCrc, FromBits, ToBits;
    ToFromBits(Reversed(ToBits(frame[i], 8)));
    ToFromBits(OctetFold(ONES, frame[..i]));
    assert frame[..i + 1][..i] == frame[..i];
  }

  /** transport::calculate_crc. */
  method CalculateCrc(dataLen: nat, frameMem: array<Octet>) returns (crc: nat)
    requires dataLen <= frameMem.Length
    ensures crc == Fcs(frameMem[..dataLen])
  {
    hide OctetStep, NextCrc, FromBits, ToBits, OctetFold;
    var currentCrc := Pow2(32) - 1;
    OnesValue(32);
    OctetFoldEmpty(ONES);
    for i := 0 to dataLen
      invariant currentCrc == FromBits(OctetFold(ONES, frameMem[..][..i]))
    {
      var reversed := ReverseBits(frameMem[i], 8);
      assert Pow2(8) == 256;
      var nextCrc := NextCrc32D8(reversed, currentCrc);
      OctetLoopStep(frameMem[..], i);
      currentCrc := nextCrc;
    }
    assert frameMem[..][..dataLen] == frameMem[..dataLen];
    ghost var c := OctetFold(ONES, frameMem[..dataLen]);
    var reversed := ReverseBits(currentCrc, 32);
    ToFromBits(c);
    InvertedValue(Reversed(c));
    crc := Pow2(32) - 1 - reversed;
  }

  lemma {:induction false} OnesValue(n: nat)
    ensures FromBits(AllTrue(n)) == Pow2(n) - 1
  {
    if n > 0 {
      assert AllTrue(n)[1..] == AllTrue(n - 1);
      OnesValue(n - 1);
    }
  }
}
