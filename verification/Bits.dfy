/** Registers and octets as sequences of bits, least significant bit first. */
module Bits {
  type Bits = seq<bool>
  type Octet = x: int | 0 <= x < 256

  function Pow2(n: nat): (p: nat)
    ensures p > 0
  {
    if n == 0 then 1 else 2 * Pow2(n - 1)
  }

  /** n >> i on unsigned values. */
  function Shr(n: nat, i: nat): nat
  {
    if i == 0 then n else Shr(n / 2, i - 1)
  }

  function ToBits(n: nat, width: nat): (b: Bits)
    ensures |b| == width
  {
    if width == 0 then [] else [n % 2 == 1] + ToBits(n / 2, width - 1)
  }

  function FromBits(b: Bits): (n: nat)
    ensures n < Pow2(|b|)
  {
    if b == [] then 0 else (if b[0] then 1 else 0) + 2 * FromBits(b[1..])
  }

  lemma {:induction false} ToBitsAt(n: nat, width: nat, i: nat)
    requires i < width
    ensures ToBits(n, width)[i] == (Shr(n, i) % 2 == 1)
  {
    if i > 0 {
      ToBitsAt(n / 2, width - 1, i - 1);
    }
  }

  lemma {:induction false} FromBitsAppend(b: Bits, top: bool)
    ensures FromBits(b + [top]) == FromBits(b) + (if top then Pow2(|b|) else 0)
  {
    if b == [] {
      assert b + [top] == [top];
    } else {
      assert (b + [top])[1..] == b[1..] + [top];
      FromBitsAppend(b[1..], top);
    }
  }

  /** Reading back the bits of a number built from bits, and the other way round. */
  lemma {:induction false} ToFromBits(b: Bits)
    ensures ToBits(FromBits(b), |b|) == b
  {
    if b != [] {
      ToFromBits(b[1..]);
      assert FromBits(b) / 2 == FromBits(b[1..]);
    }
  }

  lemma {:induction false} FromToBits(n: nat, width: nat)
    requires n < Pow2(width)
    ensures FromBits(ToBits(n, width)) == n
  {
    if width > 0 {
      FromToBits(n / 2, width - 1);
      assert ToBits(n, width)[1..] == ToBits(n / 2, width - 1);
    }
  }

  function Reversed(b: Bits): (r: Bits)
    ensures |r| == |b| && forall i | 0 <= i < |b| :: r[i] == b[|b| - 1 - i]
  {
    seq(|b|, i requires 0 <= i < |b| => b[|b| - 1 - i])
  }

  function Inverted(b: Bits): (r: Bits)
    ensures |r| == |b| && forall i | 0 <= i < |b| :: r[i] == !b[i]
  {
    seq(|b|, i requires 0 <= i < |b| => !b[i])
  }

  lemma ReversedConcat(a: Bits, b: Bits)
    ensures Reversed(a + b) == Reversed(b) + Reversed(a)
  {}

  /** The remainder is the one rest below the divisor. */
  lemma ModUnique(x: nat, q: int, r: nat, n: nat)
    requires n > 0 && r < n && x == q * n + r
    ensures x % n == r
  {
    var d := x / n - q;
    assert d > 0 ==> d * n >= n;
    assert d < 0 ==> d * n + n <= 0;
    assert d * n == r - x % n;
  }
}
