/** TimeInternal arithmetic of esl/sw/arith.cpp: sign-agreeing pairs of seconds and nanoseconds. */
module TimeArith {
  const BILLION := 1_000_000_000
  const INT32_MAX := 0x7FFF_FFFF

  datatype Time = Time(seconds: int, nanoseconds: int)

  /** C division and remainder, which truncate toward zero. */
  function Quot(a: int, b: int): int
    requires b > 0
  {
    if a >= 0 then a / b else -(-a / b)
  }

  function Rem(a: int, b: int): int
    requires b > 0
  {
    a - Quot(a, b) * b
  }

  function Abs(a: int): nat { if a < 0 then -a else a }

  /** The time in nanoseconds. */
  function Nanos(t: Time): int {
    t.seconds * BILLION + t.nanoseconds
  }

  /** Less than a second of nanoseconds, with the sign of the seconds. */
  predicate Canonical(t: Time) {
    && -BILLION < t.nanoseconds < BILLION
    && (t.seconds > 0 ==> t.nanoseconds >= 0)
    && (t.seconds < 0 ==> t.nanoseconds <= 0)
  }

  function FromNanos(v: int): Time {
    Time(Quot(v, BILLION), Rem(v, BILLION))
  }

  /** A canonical time is determined by its value, so equal values are equal pairs. */
  lemma CanonicalIsUnique(t: Time)
    ensures Canonical(FromNanos(Nanos(t))) && Nanos(FromNanos(Nanos(t))) == Nanos(t)
    ensures Canonical(t) <==> t == FromNanos(Nanos(t))
  {}

  function Normalized(t: Time): Time {
    var s := t.seconds + Quot(t.nanoseconds, BILLION);
    var n := t.nanoseconds - Quot(t.nanoseconds, BILLION) * BILLION;
    if s > 0 && n < 0 then Time(s - 1, n + BILLION)
    else if s < 0 && n > 0 then Time(s + 1, n - BILLION)
    else Time(s, n)
  }

  function Sum(x: Time, y: Time): Time {
    Normalized(Time(x.seconds + y.seconds, x.nanoseconds + y.nanoseconds))
  }

  function Difference(x: Time, y: Time): Time {
    Normalized(Time(x.seconds - y.seconds, x.nanoseconds - y.nanoseconds))
  }

  function HalfParts(t: Time): Time {
    Time(Quot(t.seconds, 2), Quot(t.nanoseconds + Rem(t.seconds, 2) * BILLION, 2))
  }

  function Half(t: Time): Time {
    Normalized(HalfParts(t))
  }

  /** isTimeInternalNegative. */
  predicate IsNegative(t: Time) {
    t.seconds < 0 || t.nanoseconds < 0
  }

  function AbsTime(t: Time): Time {
    Time(Abs(t.seconds), Abs(t.nanoseconds))
  }

  function NanoTime(nanos: int): Time {
    Normalized(Time(0, nanos))
  }

  /** gtTime: despite its name it also holds of equal times. */
  predicate NotBefore(x: Time, y: Time) {
    !IsNegative(Difference(x, y))
  }

  predicate IsClose(x: Time, y: Time, nanos: int) {
    !NotBefore(AbsTime(Difference(x, y)), NanoTime(nanos))
  }

  // ---- The functions against plain integers

  /** normalizeTime keeps the value of any pair and always leaves the canonical one. */
  lemma NormalizedIsCanonical(t: Time)
    ensures Normalized(t) == FromNanos(Nanos(t))
  {
    var q := Quot(t.nanoseconds, BILLION);
    assert Nanos(Time(t.seconds + q, t.nanoseconds - q * BILLION)) == Nanos(t);
    CanonicalIsUnique(Normalized(t));
  }

  lemma SumIsExact(x: Time, y: Time)
    ensures Sum(x, y) == FromNanos(Nanos(x) + Nanos(y))
  {
    NormalizedIsCanonical(Time(x.seconds + y.seconds, x.nanoseconds + y.nanoseconds));
  }

  lemma DifferenceIsExact(x: Time, y: Time)
    ensures Difference(x, y) == FromNanos(Nanos(x) - Nanos(y))
  {
    NormalizedIsCanonical(Time(x.seconds - y.seconds, x.nanoseconds - y.nanoseconds));
  }

  lemma HalfOfParts(t: Time)
    requires Canonical(t)
    ensures Nanos(HalfParts(t)) == Quot(Nanos(t), 2)
  {
    var s, r := Quot(t.seconds, 2), Rem(t.seconds, 2);
    assert t.seconds == 2 * s + r && -1 <= r <= 1;
    assert Nanos(t) == 2 * (s * BILLION) + (t.nanoseconds + r * BILLION);
  }

  lemma HalfOfAnyPair(t: Time)
    ensures Abs(2 * Nanos(HalfParts(t)) - Nanos(t)) <= 1
  {
    var s, r := Quot(t.seconds, 2), Rem(t.seconds, 2);
    var n := t.nanoseconds + r * BILLION;
    assert t.seconds == 2 * s + r;
    assert 2 * Nanos(HalfParts(t)) - Nanos(t) == 2 * Quot(n, 2) - n;
    HalfIsNear(n);
  }

  lemma HalfIsNear(n: int)
    ensures Abs(2 * Quot(n, 2) - n) <= 1
  {}

  /** div2Time truncates the value toward zero. */
  lemma HalfTruncates(t: Time)
    requires Canonical(t)
    ensures Half(t) == FromNanos(Quot(Nanos(t), 2))
  {
    hide Quot, Rem, FromNanos, Normalized, Nanos, Canonical, HalfParts;
    HalfOfParts(t);
    NormalizedIsCanonical(HalfParts(t));
  }

  /** On canonical operands no intermediate nanosecond value leaves the 32-bit range. */
  lemma NoNanosecondOverflow(x: Time, y: Time)
    requires Canonical(x) && Canonical(y)
    ensures Abs(x.nanoseconds + y.nanoseconds) <= INT32_MAX && Abs(x.nanoseconds - y.nanoseconds) <= INT32_MAX
    ensures Abs(x.nanoseconds + Rem(x.seconds, 2) * BILLION) <= INT32_MAX
  {
    assert -1 <= Rem(x.seconds, 2) <= 1;
  }

  lemma NegativeIsNegative(t: Time)
    requires Canonical(t)
    ensures IsNegative(t) <==> Nanos(t) < 0
  {}

  lemma NotBeforeIsOrder(x: Time, y: Time)
    ensures NotBefore(x, y) <==> Nanos(x) >= Nanos(y)
  {
    DifferenceIsExact(x, y);
    NegativeIsNegative(Difference(x, y));
  }

  /** is_Time_close: strictly nearer than the limit. */
  lemma IsCloseIsDistance(x: Time, y: Time, nanos: int)
    ensures IsClose(x, y, nanos) <==> Abs(Nanos(x) - Nanos(y)) < nanos
  {
    var d := Difference(x, y);
    DifferenceIsExact(x, y);
    CanonicalIsUnique(d);
    assert Canonical(d) && Nanos(AbsTime(d)) == Abs(Nanos(d));
    NormalizedIsCanonical(Time(0, nanos));
    CanonicalIsUnique(Time(0, nanos));
    NotBeforeIsOrder(AbsTime(d), NanoTime(nanos));
  }

  // ---- Wire formats

  /** Integer64 in units of 2^-16 ns: the fraction is dropped, toward zero. */
  function FromScaled(msb: int, lsb: int): Time {
    var scaled := msb * 0x1_0000_0000 + lsb;
    var nanos := Abs(scaled) / 0x1_0000;
    if scaled < 0 then Time(-(nanos / BILLION), -(nanos % BILLION)) else Time(nanos / BILLION, nanos % BILLION)
  }

  lemma FromScaledTruncates(msb: int, lsb: int)
    ensures FromScaled(msb, lsb) == FromNanos(Quot(msb * 0x1_0000_0000 + lsb, 0x1_0000))
  {}

  datatype Timestamp = Timestamp(secondsMsb: int, secondsLsb: int, nanosecondsField: int)

  /** fromInternalTime: a negative time leaves the timestamp as it was. */
  function ToTimestamp(t: Time, before: Timestamp): Timestamp {
    if t.seconds < 0 || t.nanoseconds < 0 then before
    else Timestamp(t.seconds / 0x1_0000_0000 % 0x1_0000, t.seconds % 0x1_0000_0000, t.nanoseconds)
  }

  function FromTimestamp(ts: Timestamp): Time {
    Time(ts.secondsMsb * 0x1_0000_0000 + ts.secondsLsb, ts.nanosecondsField)
  }

  /** A time that is not negative survives the timestamp if and only if its seconds fit 48 bits; any other is not stored. */
  lemma TimestampRoundTrip(t: Time, before: Timestamp)
    ensures FromTimestamp(ToTimestamp(t, before)) == t <==>
      if t.seconds >= 0 && t.nanoseconds >= 0 then t.seconds < 0x1_0000_0000_0000 else FromTimestamp(before) == t
  {}

  // ---- The operations on objects

  /** A TimeInternal in memory. The result of an operation may be one of its operands. */
  class TimeInternal {
    var seconds: int
    var nanoseconds: int

    function Value(): Time
      reads this
    {
      Time(seconds, nanoseconds)
    }

    constructor (t: Time)
      ensures Value() == t
    {
      seconds, nanoseconds := t.seconds, t.nanoseconds;
    }
  }

  method NormalizeTime(r: TimeInternal)
    modifies r
    ensures r.Value() == FromNanos(Nanos(old(r.Value())))
  {
    ghost var t := r.Value();
    r.seconds := r.seconds + Quot(r.nanoseconds, BILLION);
    r.nanoseconds := r.nanoseconds - Quot(r.nanoseconds, BILLION) * BILLION;
    if r.seconds > 0 && r.nanoseconds < 0 {
      r.seconds := r.seconds - 1;
      r.nanoseconds := r.nanoseconds + BILLION;
    } else if r.seconds < 0 && r.nanoseconds > 0 {
      r.seconds := r.seconds + 1;
      r.nanoseconds := r.nanoseconds - BILLION;
    }
    NormalizedIsCanonical(t);
  }

  method AddTime(r: TimeInternal, x: TimeInternal, y: TimeInternal)
    modifies r
    ensures r.Value() == FromNanos(Nanos(old(x.Value())) + Nanos(old(y.Value())))
  {
    r.seconds := x.seconds + y.seconds;
    r.nanoseconds := x.nanoseconds + y.nanoseconds;
    NormalizeTime(r);
  }

  method SubTime(r: TimeInternal, x: TimeInternal, y: TimeInternal)
    modifies r
    ensures r.Value() == FromNanos(Nanos(old(x.Value())) - Nanos(old(y.Value())))
  {
    r.seconds := x.seconds - y.seconds;
    r.nanoseconds := x.nanoseconds - y.nanoseconds;
    NormalizeTime(r);
  }

  /** Exact truncation on a canonical operand; on any other pair the result is still half of the value to a nanosecond. */
  method Div2Time(r: TimeInternal)
    modifies r
    ensures Canonical(old(r.Value())) ==> r.Value() == FromNanos(Quot(Nanos(old(r.Value())), 2))
    ensures Canonical(r.Value()) && Abs(2 * Nanos(r.Value()) - Nanos(old(r.Value()))) <= 1
  {
    hide Quot, Rem, FromNanos, Canonical, Nanos;
    ghost var t := r.Value();
    HalfOfAnyPair(t);
    if Canonical(t) {
      HalfOfParts(t);
    }
    r.nanoseconds := r.nanoseconds + Rem(r.seconds, 2) * BILLION;
    r.seconds := Quot(r.seconds, 2);
    r.nanoseconds := Quot(r.nanoseconds, 2);
    NormalizeTime(r);
    ValueOfFromNanos(Nanos(HalfParts(t)));
  }

  // ---- Late reading of the ingress time

  /** getPreciseRxTime with the ingress nanoseconds embedded in the message and the counter read afterwards. */
  function IngressTime(embedded: int, read: Time): Time {
    if embedded < read.nanoseconds then Time(read.seconds, embedded) else Time(read.seconds - 1, embedded)
  }

  function PreciseRxTime(embedded: int, read: Time, inboundLatency: Time): Time {
    Difference(IngressTime(embedded, read), inboundLatency)
  }

  lemma DifferenceIsInjective(x: Time, y: Time, z: Time)
    ensures (Difference(x, z) == Difference(y, z)) == (Nanos(x) == Nanos(y))
  {
    hide Difference, FromNanos;
    DifferenceIsExact(x, z);
    DifferenceIsExact(y, z);
    ValueOfFromNanos(Nanos(x) - Nanos(z));
    ValueOfFromNanos(Nanos(y) - Nanos(z));
  }

  lemma ValueOfFromNanos(v: int)
    ensures Nanos(FromNanos(v)) == v && Canonical(FromNanos(v))
  {}

  lemma IngressTimeIff(ingress: Time, delay: nat)
    requires 0 <= ingress.seconds && 0 <= ingress.nanoseconds < BILLION
    ensures (Nanos(IngressTime(ingress.nanoseconds, FromNanos(Nanos(ingress) + delay))) == Nanos(ingress))
      == (0 < delay <= BILLION)
  {
    var read := FromNanos(Nanos(ingress) + delay);
    ValueOfFromNanos(Nanos(ingress) + delay);
    hide FromNanos;
    assert Nanos(read) == Nanos(ingress) + delay && 0 <= read.nanoseconds < BILLION;
  }

  /** The full ingress time is rebuilt if and only if the counter is read later, by at most one second. */
  lemma PreciseRxTimeIff(ingress: Time, delay: nat, inboundLatency: Time)
    requires 0 <= ingress.seconds && 0 <= ingress.nanoseconds < BILLION
    ensures var read := FromNanos(Nanos(ingress) + delay);
      (PreciseRxTime(ingress.nanoseconds, read, inboundLatency) == Difference(ingress, inboundLatency))
      == (0 < delay <= BILLION)
  {
    hide IngressTime, Difference, FromNanos, Nanos;
    var read := FromNanos(Nanos(ingress) + delay);
    IngressTimeIff(ingress, delay);
    DifferenceIsInjective(IngressTime(ingress.nanoseconds, read), ingress, inboundLatency);
  }
}
