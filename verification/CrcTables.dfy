/** The tap tables of the eight parallel CRC-32 step functions of rtl/inc/utils.v.

    Every output bit of nextCRC32_D8 .. nextCRC32_D64 is an exclusive or of some bits of the current
    register and some bits of the data. A Taps value records that selection as two masks: bit j of q
    is set when bit j of the register is an operand, bit j of d when bit j of the data is. */
module CrcTables {
  type Mask = bv96

  function Half(m: Mask): Mask { m >> 1 }

  predicate Odd(m: Mask) { m & 1 == 1 }

  function Xor(a: Mask, b: Mask): Mask { a ^ b }

  function And(a: Mask, b: Mask): Mask { a & b }

  lemma HalfXor(a: Mask, b: Mask)
    ensures Half(Xor(a, b)) == Xor(Half(a), Half(b))
  {}

  lemma OddXor(a: Mask, b: Mask)
    ensures Odd(Xor(a, b)) == (Odd(a) != Odd(b))
  {}

  lemma HalfAnd(a: Mask, b: Mask)
    ensures Half(And(a, b)) == And(Half(a), Half(b))
  {}

  lemma OddAnd(a: Mask, b: Mask)
    ensures Odd(And(a, b)) == (Odd(a) && Odd(b))
  {}

  function Octave(m: Mask): Mask { m >> 8 }

  /** The mask without its n lowest octets. */
  function Octaves(m: Mask, n: nat): Mask
    requires n <= 8
  {
    match n
    case 0 => m
    case 1 => m >> 8
    case 2 => m >> 16
    case 3 => m >> 24
    case 4 => m >> 32
    case 5 => m >> 40
    case 6 => m >> 48
    case 7 => m >> 56
    case _ => m >> 64
  }

  lemma Octaves0(m: Mask) ensures Octaves(m, 0) == m {}
  lemma Octaves1(m: Mask) ensures Octaves(m, 1) == Octave(Octaves(m, 0)) {}
  lemma Octaves2(m: Mask) ensures Octaves(m, 2) == Octave(Octaves(m, 1)) {}
  lemma Octaves3(m: Mask) ensures Octaves(m, 3) == Octave(Octaves(m, 2)) {}
  lemma Octaves4(m: Mask) ensures Octaves(m, 4) == Octave(Octaves(m, 3)) {}
  lemma Octaves5(m: Mask) ensures Octaves(m, 5) == Octave(Octaves(m, 4)) {}
  lemma Octaves6(m: Mask) ensures Octaves(m, 6) == Octave(Octaves(m, 5)) {}
  lemma Octaves7(m: Mask) ensures Octaves(m, 7) == Octave(Octaves(m, 6)) {}
  lemma Octaves8(m: Mask) ensures Octaves(m, 8) == Octave(Octaves(m, 7)) {}

  lemma OctavesNext(m: Mask, n: nat)
    requires n < 8
    ensures Octaves(m, n + 1) == Octave(Octaves(m, n))
  {
    hide Octave, Octaves;
    match n
    case 0 => Octaves1(m);
    case 1 => Octaves2(m);
    case 2 => Octaves3(m);
    case 3 => Octaves4(m);
    case 4 => Octaves5(m);
    case 5 => Octaves6(m);
    case 6 => Octaves7(m);
    case _ => Octaves8(m);
  }

  datatype Taps = Taps(q: Mask, d: Mask)

  function D8(i: nat): Taps
    requires i < 32
  {
    if i < 16 then
      if i < 8 then
        if i < 4 then
          if i < 2 then
            if i == 0 then Taps(0x41000000, 0x41) else Taps(0xC3000000, 0xC3)
          else
            if i == 2 then Taps(0xC7000000, 0xC7) else Taps(0x8E000000, 0x8E)
        else
          if i < 6 then
            if i == 4 then Taps(0x5D000000, 0x5D) else Taps(0xFB000000, 0xFB)
          else
            if i == 6 then Taps(0xF6000000, 0xF6) else Taps(0xAD000000, 0xAD)
      else
        if i < 12 then
          if i < 10 then
            if i == 8 then Taps(0x1B000001, 0x1B) else Taps(0x36000002, 0x36)
          else
            if i == 10 then Taps(0x2D000004, 0x2D) else Taps(0x1B000008, 0x1B)
        else
          if i < 14 then
            if i == 12 then Taps(0x77000010, 0x77) else Taps(0xEE000020, 0xEE)
          else
            if i == 14 then Taps(0xDC000040, 0xDC) else Taps(0xB8000080, 0xB8)
    else
      if i < 24 then
        if i < 20 then
          if i < 18 then
            if i == 16 then Taps(0x31000100, 0x31) else Taps(0x62000200, 0x62)
          else
            if i == 18 then Taps(0xC4000400, 0xC4) else Taps(0x88000800, 0x88)
        else
          if i < 22 then
            if i == 20 then Taps(0x10001000, 0x10) else Taps(0x20002000, 0x20)
          else
            if i == 22 then Taps(0x01004000, 0x1) else Taps(0x43008000, 0x43)
      else
        if i < 28 then
          if i < 26 then
            if i == 24 then Taps(0x86010000, 0x86) else Taps(0x0C020000, 0xC)
          else
            if i == 26 then Taps(0x59040000, 0x59) else Taps(0xB2080000, 0xB2)
        else
          if i < 30 then
            if i == 28 then Taps(0x64100000, 0x64) else Taps(0xC8200000, 0xC8)
          else
            if i == 30 then Taps(0x90400000, 0x90) else Taps(0x20800000, 0x20)
  }

  function D16(i: nat): Taps
    requires i < 32
  {
    if i < 16 then
      if i < 8 then
        if i < 4 then
          if i < 2 then
            if i == 0 then Taps(0x16410000, 0x1641) else Taps(0x3AC30000, 0x3AC3)
          else
            if i == 2 then Taps(0x63C70000, 0x63C7) else Taps(0xC78E0000, 0xC78E)
        else
          if i < 6 then
            if i == 4 then Taps(0x995D0000, 0x995D) else Taps(0x24FB0000, 0x24FB)
          else
            if i == 6 then Taps(0x49F60000, 0x49F6) else Taps(0x85AD0000, 0x85AD)
      else
        if i < 12 then
          if i < 10 then
            if i == 8 then Taps(0x1D1B0000, 0x1D1B) else Taps(0x3A360000, 0x3A36)
          else
            if i == 10 then Taps(0x622D0000, 0x622D) else Taps(0xD21B0000, 0xD21B)
        else
          if i < 14 then
            if i == 12 then Taps(0xB2770000, 0xB277) else Taps(0x64EE0000, 0x64EE)
          else
            if i == 14 then Taps(0xC9DC0000, 0xC9DC) else Taps(0x93B80000, 0x93B8)
    else
      if i < 24 then
        if i < 20 then
          if i < 18 then
            if i == 16 then Taps(0x31310001, 0x3131) else Taps(0x62620002, 0x6262)
          else
            if i == 18 then Taps(0xC4C40004, 0xC4C4) else Taps(0x89880008, 0x8988)
        else
          if i < 22 then
            if i == 20 then Taps(0x13100010, 0x1310) else Taps(0x26200020, 0x2620)
          else
            if i == 22 then Taps(0x5A010040, 0x5A01) else Taps(0xA2430080, 0xA243)
      else
        if i < 28 then
          if i < 26 then
            if i == 24 then Taps(0x44860100, 0x4486) else Taps(0x890C0200, 0x890C)
          else
            if i == 26 then Taps(0x04590400, 0x459) else Taps(0x08B20800, 0x8B2)
        else
          if i < 30 then
            if i == 28 then Taps(0x11641000, 0x1164) else Taps(0x22C82000, 0x22C8)
          else
            if i == 30 then Taps(0x45904000, 0x4590) else Taps(0x8B208000, 0x8B20)
  }

  function D24(i: nat): Taps
    requires i < 32
  {
    if i < 16 then
      if i < 8 then
        if i < 4 then
          if i < 2 then
            if i == 0 then Taps(0x01164100, 0x11641) else Taps(0x033AC300, 0x33AC3)
          else
            if i == 2 then Taps(0x0763C700, 0x763C7) else Taps(0x0EC78E00, 0xEC78E)
        else
          if i < 6 then
            if i == 4 then Taps(0x1C995D00, 0x1C995D) else Taps(0x3824FB00, 0x3824FB)
          else
            if i == 6 then Taps(0x7049F600, 0x7049F6) else Taps(0xE185AD00, 0xE185AD)
      else
        if i < 12 then
          if i < 10 then
            if i == 8 then Taps(0xC21D1B00, 0xC21D1B) else Taps(0x843A3600, 0x843A36)
          else
            if i == 10 then Taps(0x09622D00, 0x9622D) else Taps(0x13D21B00, 0x13D21B)
        else
          if i < 14 then
            if i == 12 then Taps(0x26B27700, 0x26B277) else Taps(0x4D64EE00, 0x4D64EE)
          else
            if i == 14 then Taps(0x9AC9DC00, 0x9AC9DC) else Taps(0x3593B800, 0x3593B8)
    else
      if i < 24 then
        if i < 20 then
          if i < 18 then
            if i == 16 then Taps(0x6A313100, 0x6A3131) else Taps(0xD4626200, 0xD46262)
          else
            if i == 18 then Taps(0xA8C4C400, 0xA8C4C4) else Taps(0x51898800, 0x518988)
        else
          if i < 22 then
            if i == 20 then Taps(0xA3131000, 0xA31310) else Taps(0x46262000, 0x462620)
          else
            if i == 22 then Taps(0x8D5A0100, 0x8D5A01) else Taps(0x1BA24300, 0x1BA243)
      else
        if i < 28 then
          if i < 26 then
            if i == 24 then Taps(0x37448601, 0x374486) else Taps(0x6E890C02, 0x6E890C)
          else
            if i == 26 then Taps(0xDC045904, 0xDC0459) else Taps(0xB808B208, 0xB808B2)
        else
          if i < 30 then
            if i == 28 then Taps(0x70116410, 0x701164) else Taps(0xE022C820, 0xE022C8)
          else
            if i == 30 then Taps(0xC0459040, 0xC04590) else Taps(0x808B2080, 0x808B20)
  }

  function D32(i: nat): Taps
    requires i < 32
  {
    if i < 16 then
      if i < 8 then
        if i < 4 then
          if i < 2 then
            if i == 0 then Taps(0xF7011641, 0xF7011641) else Taps(0x19033AC3, 0x19033AC3)
          else
            if i == 2 then Taps(0xC50763C7, 0xC50763C7) else Taps(0x8A0EC78E, 0x8A0EC78E)
        else
          if i < 6 then
            if i == 4 then Taps(0xE31C995D, 0xE31C995D) else Taps(0x313824FB, 0x313824FB)
          else
            if i == 6 then Taps(0x627049F6, 0x627049F6) else Taps(0x33E185AD, 0x33E185AD)
      else
        if i < 12 then
          if i < 10 then
            if i == 8 then Taps(0x90C21D1B, 0x90C21D1B) else Taps(0x21843A36, 0x21843A36)
          else
            if i == 10 then Taps(0xB409622D, 0xB409622D) else Taps(0x9F13D21B, 0x9F13D21B)
        else
          if i < 14 then
            if i == 12 then Taps(0xC926B277, 0xC926B277) else Taps(0x924D64EE, 0x924D64EE)
          else
            if i == 14 then Taps(0x249AC9DC, 0x249AC9DC) else Taps(0x493593B8, 0x493593B8)
    else
      if i < 24 then
        if i < 20 then
          if i < 18 then
            if i == 16 then Taps(0x656A3131, 0x656A3131) else Taps(0xCAD46262, 0xCAD46262)
          else
            if i == 18 then Taps(0x95A8C4C4, 0x95A8C4C4) else Taps(0x2B518988, 0x2B518988)
        else
          if i < 22 then
            if i == 20 then Taps(0x56A31310, 0x56A31310) else Taps(0xAD462620, 0xAD462620)
          else
            if i == 22 then Taps(0xAD8D5A01, 0xAD8D5A01) else Taps(0xAC1BA243, 0xAC1BA243)
      else
        if i < 28 then
          if i < 26 then
            if i == 24 then Taps(0x58374486, 0x58374486) else Taps(0xB06E890C, 0xB06E890C)
          else
            if i == 26 then Taps(0x97DC0459, 0x97DC0459) else Taps(0x2FB808B2, 0x2FB808B2)
        else
          if i < 30 then
            if i == 28 then Taps(0x5F701164, 0x5F701164) else Taps(0xBEE022C8, 0xBEE022C8)
          else
            if i == 30 then Taps(0x7DC04590, 0x7DC04590) else Taps(0xFB808B20, 0xFB808B20)
  }

  function D40(i: nat): Taps
    requires i < 32
  {
    if i < 16 then
      if i < 8 then
        if i < 4 then
          if i < 2 then
            if i == 0 then Taps(0x25F70116, 0x25F7011641) else Taps(0x6E19033A, 0x6E19033AC3)
          else
            if i == 2 then Taps(0xF9C50763, 0xF9C50763C7) else Taps(0xF38A0EC7, 0xF38A0EC78E)
        else
          if i < 6 then
            if i == 4 then Taps(0xC2E31C99, 0xC2E31C995D) else Taps(0xA0313824, 0xA0313824FB)
          else
            if i == 6 then Taps(0x40627049, 0x40627049F6) else Taps(0xA533E185, 0xA533E185AD)
      else
        if i < 12 then
          if i < 10 then
            if i == 8 then Taps(0x6F90C21D, 0x6F90C21D1B) else Taps(0xDF21843A, 0xDF21843A36)
          else
            if i == 10 then Taps(0x9BB40962, 0x9BB409622D) else Taps(0x129F13D2, 0x129F13D21B)
        else
          if i < 14 then
            if i == 12 then Taps(0x00C926B2, 0xC926B277) else Taps(0x01924D64, 0x1924D64EE)
          else
            if i == 14 then Taps(0x03249AC9, 0x3249AC9DC) else Taps(0x06493593, 0x6493593B8)
    else
      if i < 24 then
        if i < 20 then
          if i < 18 then
            if i == 16 then Taps(0x29656A31, 0x29656A3131) else Taps(0x52CAD462, 0x52CAD46262)
          else
            if i == 18 then Taps(0xA595A8C4, 0xA595A8C4C4) else Taps(0x4B2B5189, 0x4B2B518988)
        else
          if i < 22 then
            if i == 20 then Taps(0x9656A313, 0x9656A31310) else Taps(0x2CAD4626, 0x2CAD462620)
          else
            if i == 22 then Taps(0x7CAD8D5A, 0x7CAD8D5A01) else Taps(0xDCAC1BA2, 0xDCAC1BA243)
      else
        if i < 28 then
          if i < 26 then
            if i == 24 then Taps(0xB9583744, 0xB958374486) else Taps(0x72B06E89, 0x72B06E890C)
          else
            if i == 26 then Taps(0xC097DC04, 0xC097DC0459) else Taps(0x812FB808, 0x812FB808B2)
        else
          if i < 30 then
            if i == 28 then Taps(0x025F7011, 0x25F701164) else Taps(0x04BEE022, 0x4BEE022C8)
          else
            if i == 30 then Taps(0x097DC045, 0x97DC04590) else Taps(0x12FB808B, 0x12FB808B20)
  }

  function D48(i: nat): Taps
    requires i < 32
  {
    if i < 16 then
      if i < 8 then
        if i < 4 then
          if i < 2 then
            if i == 0 then Taps(0xB025F701, 0xB025F7011641) else Taps(0xD06E1903, 0xD06E19033AC3)
          else
            if i == 2 then Taps(0x10F9C507, 0x10F9C50763C7) else Taps(0x21F38A0E, 0x21F38A0EC78E)
        else
          if i < 6 then
            if i == 4 then Taps(0xF3C2E31C, 0xF3C2E31C995D) else Taps(0x57A03138, 0x57A0313824FB)
          else
            if i == 6 then Taps(0xAF406270, 0xAF40627049F6) else Taps(0xEEA533E1, 0xEEA533E185AD)
      else
        if i < 12 then
          if i < 10 then
            if i == 8 then Taps(0x6D6F90C2, 0x6D6F90C21D1B) else Taps(0xDADF2184, 0xDADF21843A36)
          else
            if i == 10 then Taps(0x059BB409, 0x59BB409622D) else Taps(0xBB129F13, 0xBB129F13D21B)
        else
          if i < 14 then
            if i == 12 then Taps(0xC600C926, 0xC600C926B277) else Taps(0x8C01924D, 0x8C01924D64EE)
          else
            if i == 14 then Taps(0x1803249A, 0x1803249AC9DC) else Taps(0x30064935, 0x3006493593B8)
    else
      if i < 24 then
        if i < 20 then
          if i < 18 then
            if i == 16 then Taps(0xD029656A, 0xD029656A3131) else Taps(0xA052CAD4, 0xA052CAD46262)
          else
            if i == 18 then Taps(0x40A595A8, 0x40A595A8C4C4) else Taps(0x814B2B51, 0x814B2B518988)
        else
          if i < 22 then
            if i == 20 then Taps(0x029656A3, 0x29656A31310) else Taps(0x052CAD46, 0x52CAD462620)
          else
            if i == 22 then Taps(0xBA7CAD8D, 0xBA7CAD8D5A01) else Taps(0xC4DCAC1B, 0xC4DCAC1BA243)
      else
        if i < 28 then
          if i < 26 then
            if i == 24 then Taps(0x89B95837, 0x89B958374486) else Taps(0x1372B06E, 0x1372B06E890C)
          else
            if i == 26 then Taps(0x96C097DC, 0x96C097DC0459) else Taps(0x2D812FB8, 0x2D812FB808B2)
        else
          if i < 30 then
            if i == 28 then Taps(0x5B025F70, 0x5B025F701164) else Taps(0xB604BEE0, 0xB604BEE022C8)
          else
            if i == 30 then Taps(0x6C097DC0, 0x6C097DC04590) else Taps(0xD812FB80, 0xD812FB808B20)
  }

  function D56(i: nat): Taps
    requires i < 32
  {
    if i < 16 then
      if i < 8 then
        if i < 4 then
          if i < 2 then
            if i == 0 then Taps(0xE5B025F7, 0xE5B025F7011641) else Taps(0x2ED06E19, 0x2ED06E19033AC3)
          else
            if i == 2 then Taps(0xB810F9C5, 0xB810F9C50763C7) else Taps(0x7021F38A, 0x7021F38A0EC78E)
        else
          if i < 6 then
            if i == 4 then Taps(0x05F3C2E3, 0x5F3C2E31C995D) else Taps(0xEE57A031, 0xEE57A0313824FB)
          else
            if i == 6 then Taps(0xDCAF4062, 0xDCAF40627049F6) else Taps(0x5CEEA533, 0x5CEEA533E185AD)
      else
        if i < 12 then
          if i < 10 then
            if i == 8 then Taps(0x5C6D6F90, 0x5C6D6F90C21D1B) else Taps(0xB8DADF21, 0xB8DADF21843A36)
          else
            if i == 10 then Taps(0x94059BB4, 0x94059BB409622D) else Taps(0xCDBB129F, 0xCDBB129F13D21B)
        else
          if i < 14 then
            if i == 12 then Taps(0x7EC600C9, 0x7EC600C926B277) else Taps(0xFD8C0192, 0xFD8C01924D64EE)
          else
            if i == 14 then Taps(0xFB180324, 0xFB1803249AC9DC) else Taps(0xF6300649, 0xF63006493593B8)
    else
      if i < 24 then
        if i < 20 then
          if i < 18 then
            if i == 16 then Taps(0x09D02965, 0x9D029656A3131) else Taps(0x13A052CA, 0x13A052CAD46262)
          else
            if i == 18 then Taps(0x2740A595, 0x2740A595A8C4C4) else Taps(0x4E814B2B, 0x4E814B2B518988)
        else
          if i < 22 then
            if i == 20 then Taps(0x9D029656, 0x9D029656A31310) else Taps(0x3A052CAD, 0x3A052CAD462620)
          else
            if i == 22 then Taps(0x91BA7CAD, 0x91BA7CAD8D5A01) else Taps(0xC6C4DCAC, 0xC6C4DCAC1BA243)
      else
        if i < 28 then
          if i < 26 then
            if i == 24 then Taps(0x8D89B958, 0x8D89B958374486) else Taps(0x1B1372B0, 0x1B1372B06E890C)
          else
            if i == 26 then Taps(0xD396C097, 0xD396C097DC0459) else Taps(0xA72D812F, 0xA72D812FB808B2)
        else
          if i < 30 then
            if i == 28 then Taps(0x4E5B025F, 0x4E5B025F701164) else Taps(0x9CB604BE, 0x9CB604BEE022C8)
          else
            if i == 30 then Taps(0x396C097D, 0x396C097DC04590) else Taps(0x72D812FB, 0x72D812FB808B20)
  }

  function D64(i: nat): Taps
    requires i < 32
  {
    if i < 16 then
      if i < 8 then
        if i < 4 then
          if i < 2 then
            if i == 0 then Taps(0xB4E5B025, 0xB4E5B025F7011641) else Taps(0xDD2ED06E, 0xDD2ED06E19033AC3)
          else
            if i == 2 then Taps(0x0EB810F9, 0xEB810F9C50763C7) else Taps(0x1D7021F3, 0x1D7021F38A0EC78E)
        else
          if i < 6 then
            if i == 4 then Taps(0x8E05F3C2, 0x8E05F3C2E31C995D) else Taps(0xA8EE57A0, 0xA8EE57A0313824FB)
          else
            if i == 6 then Taps(0x51DCAF40, 0x51DCAF40627049F6) else Taps(0x175CEEA5, 0x175CEEA533E185AD)
      else
        if i < 12 then
          if i < 10 then
            if i == 8 then Taps(0x9A5C6D6F, 0x9A5C6D6F90C21D1B) else Taps(0x34B8DADF, 0x34B8DADF21843A36)
          else
            if i == 10 then Taps(0xDD94059B, 0xDD94059BB409622D) else Taps(0x0FCDBB12, 0xFCDBB129F13D21B)
        else
          if i < 14 then
            if i == 12 then Taps(0xAB7EC600, 0xAB7EC600C926B277) else Taps(0x56FD8C01, 0x56FD8C01924D64EE)
          else
            if i == 14 then Taps(0xADFB1803, 0xADFB1803249AC9DC) else Taps(0x5BF63006, 0x5BF63006493593B8)
    else
      if i < 24 then
        if i < 20 then
          if i < 18 then
            if i == 16 then Taps(0x0309D029, 0x309D029656A3131) else Taps(0x0613A052, 0x613A052CAD46262)
          else
            if i == 18 then Taps(0x0C2740A5, 0xC2740A595A8C4C4) else Taps(0x184E814B, 0x184E814B2B518988)
        else
          if i < 22 then
            if i == 20 then Taps(0x309D0296, 0x309D029656A31310) else Taps(0x613A052C, 0x613A052CAD462620)
          else
            if i == 22 then Taps(0x7691BA7C, 0x7691BA7CAD8D5A01) else Taps(0x59C6C4DC, 0x59C6C4DCAC1BA243)
      else
        if i < 28 then
          if i < 26 then
            if i == 24 then Taps(0xB38D89B9, 0xB38D89B958374486) else Taps(0x671B1372, 0x671B1372B06E890C)
          else
            if i == 26 then Taps(0x7AD396C0, 0x7AD396C097DC0459) else Taps(0xF5A72D81, 0xF5A72D812FB808B2)
        else
          if i < 30 then
            if i == 28 then Taps(0xEB4E5B02, 0xEB4E5B025F701164) else Taps(0xD69CB604, 0xD69CB604BEE022C8)
          else
            if i == 30 then Taps(0xAD396C09, 0xAD396C097DC04590) else Taps(0x5A72D812, 0x5A72D812FB808B20)
  }

  /** Bit t of Residues(i) says whether the power x^t, reduced modulo the CRC-32 polynomial, has the term x^i. */
  function Residues(i: nat): Mask
    requires i < 32
  {
    if i < 16 then
      if i < 8 then
        if i < 4 then
          if i < 2 then
            if i == 0 then 0xB4E5B025F701164100000001 else 0xDD2ED06E19033AC300000002
          else
            if i == 2 then 0x0EB810F9C50763C700000004 else 0x1D7021F38A0EC78E00000008
        else
          if i < 6 then
            if i == 4 then 0x8E05F3C2E31C995D00000010 else 0xA8EE57A0313824FB00000020
          else
            if i == 6 then 0x51DCAF40627049F600000040 else 0x175CEEA533E185AD00000080
      else
        if i < 12 then
          if i < 10 then
            if i == 8 then 0x9A5C6D6F90C21D1B00000100 else 0x34B8DADF21843A3600000200
          else
            if i == 10 then 0xDD94059BB409622D00000400 else 0x0FCDBB129F13D21B00000800
        else
          if i < 14 then
            if i == 12 then 0xAB7EC600C926B27700001000 else 0x56FD8C01924D64EE00002000
          else
            if i == 14 then 0xADFB1803249AC9DC00004000 else 0x5BF63006493593B800008000
    else
      if i < 24 then
        if i < 20 then
          if i < 18 then
            if i == 16 then 0x0309D029656A313100010000 else 0x0613A052CAD4626200020000
          else
            if i == 18 then 0x0C2740A595A8C4C400040000 else 0x184E814B2B51898800080000
        else
          if i < 22 then
            if i == 20 then 0x309D029656A3131000100000 else 0x613A052CAD46262000200000
          else
            if i == 22 then 0x7691BA7CAD8D5A0100400000 else 0x59C6C4DCAC1BA24300800000
      else
        if i < 28 then
          if i < 26 then
            if i == 24 then 0xB38D89B95837448601000000 else 0x671B1372B06E890C02000000
          else
            if i == 26 then 0x7AD396C097DC045904000000 else 0xF5A72D812FB808B208000000
        else
          if i < 30 then
            if i == 28 then 0xEB4E5B025F70116410000000 else 0xD69CB604BEE022C820000000
          else
            if i == 30 then 0xAD396C097DC0459040000000 else 0x5A72D812FB808B2080000000
  }

  /** The exponents below 32 of the polynomial of section 3.2.9 of IEEE 802.3. */
  predicate Polynomial(i: nat)
    requires i < 32
  {
    i <= 2 || 4 <= i <= 5 || 7 <= i <= 8 || 10 <= i <= 12 || i == 16 || 22 <= i <= 23 || i == 26
  }

  const LOW32: Mask := 0xFFFF_FFFF
  const LOW95: Mask := 0x7FFF_FFFF_FFFF_FFFF_FFFF_FFFF

  function Below(i: nat): Mask
    requires i < 32
  {
    if i == 0 then 0 else Residues(i - 1)
  }

  function Fed(i: nat): Mask
    requires i < 32
  {
    if Polynomial(i) then Residues(31) else 0
  }

  /** Multiplying by x and reducing: what ties one coefficient row to the row below it and to the top row. */
  predicate Recurrence(i: nat)
    requires i < 32
  {
    var r := Residues(i);
    && Half(r) == And(Xor(Below(i), Fed(i)), LOW95)
    && Half(And(r, LOW32)) == And(Below(i), LOW32)
    && (Odd(And(r, LOW32)) <==> i == 0)
    && (Odd(r >> 32) <==> Polynomial(i))
  }

  /** Row i of nextCRC32_D(8 * lanes). */
  function Row(lanes: nat, i: nat): Taps
    requires 1 <= lanes <= 8 && i < 32
  {
    match lanes
    case 1 => D8(i)
    case 2 => D16(i)
    case 3 => D24(i)
    case 4 => D32(i)
    case 5 => D40(i)
    case 6 => D48(i)
    case 7 => D56(i)
    case _ => D64(i)
  }

  function LowOctets(lanes: nat): Mask
    requires 1 <= lanes <= 8
  {
    match lanes
    case 1 => 0xFF
    case 2 => 0xFFFF
    case 3 => 0xFF_FFFF
    case 4 => 0xFFFF_FFFF
    case 5 => 0xFF_FFFF_FFFF
    case 6 => 0xFFFF_FFFF_FFFF
    case 7 => 0xFF_FFFF_FFFF_FFFF
    case _ => 0xFFFF_FFFF_FFFF_FFFF
  }

  /** A table row is a window of coefficient row i: 32 coefficients for the register, 8 * lanes for the data. */
  predicate Window(t: Taps, lanes: nat, i: nat, cover: Mask)
    requires lanes <= 8 && i < 32
  {
    && t.q == And(Octaves(Residues(i), lanes), LOW32)
    && t.d == And(Octaves(Residues(i), 4), cover)
  }

  predicate Selects(t: Taps, q: Mask, d: Mask) { t.q == And(q, LOW32) && t.d == d }

  predicate Window1(i: nat) requires i < 32 { Selects(D8(i), Residues(i) >> 8, And(Residues(i) >> 32, 0xFF)) }
  predicate Window2(i: nat) requires i < 32 { Selects(D16(i), Residues(i) >> 16, And(Residues(i) >> 32, 0xFFFF)) }
  predicate Window3(i: nat) requires i < 32 { Selects(D24(i), Residues(i) >> 24, And(Residues(i) >> 32, 0xFF_FFFF)) }
  predicate Window4(i: nat) requires i < 32 { Selects(D32(i), Residues(i) >> 32, And(Residues(i) >> 32, 0xFFFF_FFFF)) }
  predicate Window5(i: nat) requires i < 32 { Selects(D40(i), Residues(i) >> 40, And(Residues(i) >> 32, 0xFF_FFFF_FFFF)) }
  predicate Window6(i: nat) requires i < 32 { Selects(D48(i), Residues(i) >> 48, And(Residues(i) >> 32, 0xFFFF_FFFF_FFFF)) }
  predicate Window7(i: nat) requires i < 32 { Selects(D56(i), Residues(i) >> 56, And(Residues(i) >> 32, 0xFF_FFFF_FFFF_FFFF)) }
  predicate Window8(i: nat) requires i < 32 { Selects(D64(i), Residues(i) >> 64, And(Residues(i) >> 32, 0xFFFF_FFFF_FFFF_FFFF)) }

  predicate Windows(i: nat)
    requires i < 32
  {
    && Window1(i) && Window2(i) && Window3(i) && Window4(i)
    && Window5(i) && Window6(i) && Window7(i) && Window8(i)
  }

  function Nibble(m: Mask): Mask { m >> 4 }

  function Quarter(m: Mask): Mask { m >> 2 }

  function Fold16(m: Mask): Mask { Xor(m, Octaves(m, 2)) }

  function Fold8(m: Mask): Mask { Xor(m, Octave(m)) }

  function Fold4(m: Mask): Mask { Xor(m, Nibble(m)) }

  function Fold2(m: Mask): Mask { Xor(m, Quarter(m)) }

  function Fold1(m: Mask): Mask { Xor(m, Half(m)) }

  /** The parity of the 32 lowest bits. */
  predicate Parity(m: Mask) { Odd(Fold1(Fold2(Fold4(Fold8(Fold16(m)))))) }

  /** The register a frame with a right check sequence leaves behind: 0xC704DD7B. */
  predicate GoodFrame(i: nat)
    requires i < 32
  {
    i <= 1 || 3 <= i <= 6 || i == 8 || 10 <= i <= 12 || 14 <= i <= 15 || i == 18 || 24 <= i <= 26 || 30 <= i
  }

  predicate OnesRow(i: nat)
    requires i < 32
  {
    Parity(D32(i).d) <==> GoodFrame(i)
  }

  predicate Sound(i: nat)
    requires i < 32
  {
    && Recurrence(i)
    && Windows(i)
    && OnesRow(i)
  }

  lemma Row0() ensures Sound(0) {}
  lemma Row1() ensures Sound(1) {}
  lemma Row2() ensures Sound(2) {}
  lemma Row3() ensures Sound(3) {}
  lemma Row4() ensures Sound(4) {}
  lemma Row5() ensures Sound(5) {}
  lemma Row6() ensures Sound(6) {}
  lemma Row7() ensures Sound(7) {}
  lemma Row8() ensures Sound(8) {}
  lemma Row9() ensures Sound(9) {}
  lemma Row10() ensures Sound(10) {}
  lemma Row11() ensures Sound(11) {}
  lemma Row12() ensures Sound(12) {}
  lemma Row13() ensures Sound(13) {}
  lemma Row14() ensures Sound(14) {}
  lemma Row15() ensures Sound(15) {}
  lemma Row16() ensures Sound(16) {}
  lemma Row17() ensures Sound(17) {}
  lemma Row18() ensures Sound(18) {}
  lemma Row19() ensures Sound(19) {}
  lemma Row20() ensures Sound(20) {}
  lemma Row21() ensures Sound(21) {}
  lemma Row22() ensures Sound(22) {}
  lemma Row23() ensures Sound(23) {}
  lemma Row24() ensures Sound(24) {}
  lemma Row25() ensures Sound(25) {}
  lemma Row26() ensures Sound(26) {}
  lemma Row27() ensures Sound(27) {}
  lemma Row28() ensures Sound(28) {}
  lemma Row29() ensures Sound(29) {}
  lemma Row30() ensures Sound(30) {}
  lemma Row31() ensures Sound(31) {}

  lemma LowerRows(i: nat)
    requires i < 16
    ensures Sound(i)
  {
    hide *;
    if i < 8 {
      Row0(); Row1(); Row2(); Row3(); Row4(); Row5(); Row6(); Row7();
    } else {
      Row8(); Row9(); Row10(); Row11(); Row12(); Row13(); Row14(); Row15();
    }
  }

  lemma UpperRows(i: nat)
    requires 16 <= i < 32
    ensures Sound(i)
  {
    hide *;
    if i < 24 {
      Row16(); Row17(); Row18(); Row19(); Row20(); Row21(); Row22(); Row23();
    } else {
      Row24(); Row25(); Row26(); Row27(); Row28(); Row29(); Row30(); Row31();
    }
  }

  /** All 32 rows of all eight tables are right. */
  lemma AllWindows(i: nat)
    requires i < 32
    ensures Windows(i)
  {
    hide Windows, Recurrence, OnesRow;
    if i < 16 {
      LowerRows(i);
    } else {
      UpperRows(i);
    }
  }

  lemma AllOnesRows(i: nat)
    requires i < 32
    ensures OnesRow(i)
  {
    hide Windows, Recurrence, OnesRow;
    if i < 16 {
      LowerRows(i);
    } else {
      UpperRows(i);
    }
  }

  lemma AllRecurrences(i: nat)
    requires i < 32
    ensures Recurrence(i)
  {
    hide Windows, Recurrence, OnesRow;
    if i < 16 {
      LowerRows(i);
    } else {
      UpperRows(i);
    }
  }

  lemma DataCoefficient(i: nat)
    requires i < 32
    ensures Odd(Octaves(Residues(i), 4)) <==> Polynomial(i)
  {
    hide Half, Xor, And, Residues, Polynomial;
    AllRecurrences(i);
  }

  lemma Lane1(i: nat) requires i < 32 && Window1(i) ensures Window(Row(1, i), 1, i, LowOctets(1)) { hide D8, And, Residues; }
  lemma Lane2(i: nat) requires i < 32 && Window2(i) ensures Window(Row(2, i), 2, i, LowOctets(2)) { hide D16, And, Residues; }
  lemma Lane3(i: nat) requires i < 32 && Window3(i) ensures Window(Row(3, i), 3, i, LowOctets(3)) { hide D24, And, Residues; }
  lemma Lane4(i: nat) requires i < 32 && Window4(i) ensures Window(Row(4, i), 4, i, LowOctets(4)) { hide D32, And, Residues; }
  lemma Lane5(i: nat) requires i < 32 && Window5(i) ensures Window(Row(5, i), 5, i, LowOctets(5)) { hide D40, And, Residues; }
  lemma Lane6(i: nat) requires i < 32 && Window6(i) ensures Window(Row(6, i), 6, i, LowOctets(6)) { hide D48, And, Residues; }
  lemma Lane7(i: nat) requires i < 32 && Window7(i) ensures Window(Row(7, i), 7, i, LowOctets(7)) { hide D56, And, Residues; }
  lemma Lane8(i: nat) requires i < 32 && Window8(i) ensures Window(Row(8, i), 8, i, LowOctets(8)) { hide D64, And, Residues; }

  lemma RowIsWindow(lanes: nat, i: nat)
    requires 1 <= lanes <= 8 && i < 32
    ensures Window(Row(lanes, i), lanes, i, LowOctets(lanes))
  {
    hide Window, Row, LowOctets, Window1, Window2, Window3, Window4, Window5, Window6, Window7, Window8;
    AllWindows(i);
    match lanes
    case 1 => Lane1(i);
    case 2 => Lane2(i);
    case 3 => Lane3(i);
    case 4 => Lane4(i);
    case 5 => Lane5(i);
    case 6 => Lane6(i);
    case 7 => Lane7(i);
    case _ => Lane8(i);
  }
}
