/** The clock servo of esl/sw/dep/servo.cpp: delay filters, syntonisation detector and PI controller. */
module Servo {
  import opened Bits
  import opened TimeArith

  const ADJ_FREQ_MAX := 42950
  const OFM_DELAY_LEN := 30
  const TIME_DEV := 38                           // (int)6.0 clock periods of 6.4 ns, truncated
  const PI_UNIT := 1                             // the attenuation floor, 1.16 truncated to an integer

  datatype DelayMechanism = E2E | P2P | Disabled

  datatype Options = Options(
    s: nat, maxDelay: int, maxReset: int, noAdjust: bool, noResetClock: bool, ap: int, ai: int,
    mechanism: DelayMechanism, initialTick: int)

  /** The stiffness is a shift count of a 32-bit integer. */
  predicate ValidOptions(o: Options) { o.s <= 30 }

  datatype DelayFilter = DelayFilter(y: int, nsecPrev: int, sExp: int)

  /** Writes to the counter's control and offset registers: clear it, or move it by a signed offset. */
  datatype RtcCommand = ClearRtc | MoveRtc(offset: Time)

  /** Everything the servo reads and writes, with the commands it has given the counter so far. */
  datatype State = State(
    owd: DelayFilter, meanPathDelay: Time, peerMeanPathDelay: Time, delaySM: Time, delayMS: Time,
    offset: Time, ofmY: int, ofmPrev: int, offsetFirstUpdated: bool, drift: int, tick: int, commands: seq<RtcCommand>,
    zline: seq<int>, count: nat, current: bool, z1: bool, z2: bool)

  // ---- The one-way delay filter

  lemma {:induction false} ShrIsZeroIff(n: nat, i: nat)
    ensures Shr(n, i) == 0 <==> n < Pow2(i)
  {
    if i > 0 {
      ShrIsZeroIff(n / 2, i - 1);
    }
  }

  /** The magnitude shifted left by i is still a 32-bit integer. */
  predicate SurvivesShift(y: int, i: nat) { i <= 31 && Abs(y) < Pow2(31 - i) }

  /** The largest stiffness that y survives. */
  function Stiffness(y: int, s: nat): (r: nat)
    requires s <= 30 && SurvivesShift(y, 0)
    ensures r <= s && SurvivesShift(y, r)
    ensures r < s ==> !SurvivesShift(y, r + 1)
    decreases s
  {
    if SurvivesShift(y, s) then s else Stiffness(y, s - 1)
  }

  /** The filter gain of one update: it grows by one up to 2^s, or falls to 2^s. */
  function NextExp(sExp: int, s: nat): (e: int)
    ensures 1 <= e <= Pow2(s)
  {
    if sExp < 1 then 1
    else if sExp < Pow2(s) then sExp + 1
    else if sExp > Pow2(s) then Pow2(s)
    else sExp
  }

  /** The product that the filter computes in 32 bits, and the filtered value. */
  function Weighted(y: int, e: int): int { (e - 1) * y }

  function Blend(y: int, ns: int, prev: int, e: int): int
    requires e > 0
  {
    Quot(Weighted(y, e), e) + Quot(Quot(ns, 2) + Quot(prev, 2), e)
  }

  function Filtered(f: DelayFilter, ns: int, s: nat): DelayFilter
    requires s <= 30 && Abs(f.y) < Pow2(31)
  {
    var e := NextExp(f.sExp, Stiffness(f.y, s));
    DelayFilter(Blend(f.y, ns, f.nsecPrev, e), ns, e)
  }

  /** The published delay: the first sample of a cleared filter passes unchanged. */
  function Published(f: DelayFilter, ns: int, s: nat): int
    requires s <= 30 && Abs(f.y) < Pow2(31)
  {
    if f.nsecPrev != 0 then Filtered(f, ns, s).y else ns
  }

  function Cleared(f: DelayFilter): DelayFilter { DelayFilter(f.y, 0, 0) }

  lemma {:induction false} Pow2Sum(a: nat, b: nat)
    ensures Pow2(a + b) == Pow2(a) * Pow2(b)
  {
    if a > 0 {
      Pow2Sum(a - 1, b);
      var p, q := Pow2(a - 1), Pow2(b);
      assert Pow2(a + b) == 2 * (p * q);
      assert Pow2(a) == 2 * p;
      assert 2 * p * q == 2 * (p * q);
    }
  }

  lemma WordSize()
    ensures Pow2(31) == 0x8000_0000
  {
    assert Pow2(11) == 2048 && Pow2(10) == 1024;
    hide Pow2;
    Pow2Sum(10, 10);
    Pow2Sum(11, 20);
  }

  lemma ProductBound(a: int, b: int, c: int, d: int)
    requires 0 <= a <= b && 0 <= c < d && 0 < b
    ensures a * c < b * d
  {
    assert a * c <= b * c < b * d;
  }

  lemma AbsProduct(a: nat, b: int)
    ensures Abs(a * b) == a * Abs(b)
  {}

  /** The overflow guard works: the product fits 32 bits whatever the filter state was. */
  lemma NoFilterOverflow(f: DelayFilter, s: nat)
    requires s <= 30 && Abs(f.y) < Pow2(31)
    ensures Abs(Weighted(f.y, NextExp(f.sExp, Stiffness(f.y, s)))) <= INT32_MAX
  {
    hide Stiffness, NextExp, Pow2;
    var k := Stiffness(f.y, s);
    var e := NextExp(f.sExp, k);
    ProductBound(e - 1, Pow2(k), Abs(f.y), Pow2(31 - k));
    Pow2Sum(k, 31 - k);
    WordSize();
    AbsProduct(e - 1, f.y);
  }

  lemma ProductOrder(b: int, x: int, m: int)
    requires b > 0
    ensures (x > m ==> b * x > b * m) && (x >= m ==> b * x >= b * m)
  {
    assert b * x == b * m + b * (x - m);
  }

  lemma QuotShrinks(a: int, b: int)
    requires b > 0
    ensures b * Abs(Quot(a, b)) <= Abs(a)
  {
    assert Abs(Quot(a, b)) == Abs(a) / b;
  }

  lemma QuotSumBound(a: int, c: int, b: int, m: nat)
    requires b > 0 && Abs(a) + Abs(c) <= b * m
    ensures Abs(Quot(a, b) + Quot(c, b)) <= m
  {
    hide Quot;
    QuotShrinks(a, b);
    QuotShrinks(c, b);
    var t := Abs(Quot(a, b)) + Abs(Quot(c, b));
    assert b * t == b * Abs(Quot(a, b)) + b * Abs(Quot(c, b));
    ProductOrder(b, t, m);
  }

  /** One update never leaves the range of its state and its input, in either direction. */
  lemma FilterStaysInRange(f: DelayFilter, ns: int, s: nat, m: nat)
    requires s <= 30 && Abs(f.y) < Pow2(31)
    requires Abs(f.y) <= m && Abs(f.nsecPrev) <= m && Abs(ns) <= m
    ensures Abs(Filtered(f, ns, s).y) <= m && Abs(Filtered(f, ns, s).nsecPrev) <= m
  {
    hide Stiffness, NextExp, Pow2, Blend;
    BlendStaysInRange(f.y, ns, f.nsecPrev, NextExp(f.sExp, Stiffness(f.y, s)), m);
  }

  lemma BlendStaysInRange(y: int, ns: int, prev: int, e: int, m: nat)
    requires e > 0 && Abs(y) <= m && Abs(prev) <= m && Abs(ns) <= m
    ensures Abs(Blend(y, ns, prev, e)) <= m
  {
    hide Quot;
    HalvesBound(ns, prev, m);
    WeightedBound(y, e, m);
    QuotSumBound(Weighted(y, e), Quot(ns, 2) + Quot(prev, 2), e, m);
  }

  lemma WeightedBound(y: int, e: int, m: nat)
    requires e > 0 && Abs(y) <= m
    ensures Abs(Weighted(y, e)) + m <= e * m
  {
    AbsProduct(e - 1, y);
    assert (e - 1) * Abs(y) <= (e - 1) * m;
    assert (e - 1) * m + m == e * m;
  }

  lemma HalvesBound(a: int, b: int, m: nat)
    requires Abs(a) <= m && Abs(b) <= m
    ensures Abs(Quot(a, 2) + Quot(b, 2)) <= m
  {}

  /** Samples of one sign keep the output on that side of zero. */
  lemma FilterKeepsSign(f: DelayFilter, ns: nat, s: nat)
    requires s <= 30 && Abs(f.y) < Pow2(31) && f.y >= 0 && f.nsecPrev >= 0
    ensures Filtered(f, ns, s).y >= 0
  {
    hide Stiffness, NextExp, Pow2, Blend;
    BlendKeepsSign(f.y, ns, f.nsecPrev, NextExp(f.sExp, Stiffness(f.y, s)));
  }

  lemma BlendKeepsSign(y: nat, ns: nat, prev: nat, e: int)
    requires e > 0
    ensures Blend(y, ns, prev, e) >= 0
  {
    hide Quot;
    QuotKeepsSign((e - 1) * y, e);
    QuotKeepsSign(ns, 2);
    QuotKeepsSign(prev, 2);
    QuotKeepsSign(Quot(ns, 2) + Quot(prev, 2), e);
  }

  lemma QuotKeepsSign(a: nat, b: int)
    requires b > 0
    ensures Quot(a, b) >= 0
  {}

  lemma QuotRemainder(a: int, b: int)
    requires b > 0
    ensures Abs(a - b * Quot(a, b)) < b
  {
    assert Abs(a) == b * (Abs(a) / b) + Abs(a) % b;
  }

  /** The output is the mean of the old output, e - 1 times, and the last two samples, half each, up to rounding. */
  lemma BlendIsWeightedMean(y: int, ns: int, prev: int, e: int)
    requires e > 0
    ensures Abs(2 * (e * Blend(y, ns, prev, e)) - (2 * ((e - 1) * y) + ns + prev)) < 4 * e
  {
    hide Quot;
    var a, c := Weighted(y, e), Quot(ns, 2) + Quot(prev, 2);
    QuotRemainder(a, e);
    QuotRemainder(c, e);
    QuotRemainder(ns, 2);
    QuotRemainder(prev, 2);
    assert e * Blend(y, ns, prev, e) == e * Quot(a, e) + e * Quot(c, e);
  }

  // ---- The four updates as functions of the servo state

  function RawMeanDelay(delaySM: Time, delayMS: Time, correction: Time): Time {
    Half(Difference(Sum(delaySM, delayMS), correction))
  }

  /** The checks on the raw slave-to-master delay, made once an offset is known and unless maxDelay is zero. */
  predicate DelayRejected(o: Options, delaySM: Time) {
    && o.maxDelay != 0
    && ((delaySM.nanoseconds < 0 && Abs(delaySM.nanoseconds) > o.maxDelay)
        || delaySM.seconds != 0
        || delaySM.nanoseconds > o.maxDelay)
  }

  predicate ValidState(st: State) {
    Abs(st.owd.y) < Pow2(31) && Abs(st.owd.nsecPrev) < Pow2(31) && |st.zline| == OFM_DELAY_LEN
  }

  /** updateDelay, after a Delay_Resp: delay_req sent at send, received at recv by the master. */
  function DelayUpdated(st: State, o: Options, send: Time, recv: Time, correction: Time): State
    requires ValidState(st) && ValidOptions(o)
  {
    var sm := Difference(recv, send);
    var raw := RawMeanDelay(sm, st.delayMS, correction);
    if !st.offsetFirstUpdated || DelayRejected(o, sm) then st
    else if raw.seconds != 0 then st.(delaySM := sm, owd := Cleared(st.owd))
    else if raw.nanoseconds < 0 then st.(delaySM := sm)
    else st.(delaySM := sm, owd := Filtered(st.owd, raw.nanoseconds, o.s),
             meanPathDelay := Time(0, Published(st.owd, raw.nanoseconds, o.s)))
  }

  datatype PeerTimes = PeerTimes(reqSend: Time, reqRecv: Time, respSend: Time, respRecv: Time)

  function RawPeerDelay(p: PeerTimes, correction: Time, twoStep: bool): Time {
    if twoStep then
      Half(Difference(Sum(Difference(p.respRecv, p.respSend), Difference(p.reqRecv, p.reqSend)), correction))
    else
      Half(Difference(Difference(p.respRecv, p.reqSend), correction))
  }

  /** updatePeerDelay: a mean delay of a second or more is published as it is. */
  function PeerDelayUpdated(st: State, o: Options, p: PeerTimes, correction: Time, twoStep: bool): State
    requires ValidState(st) && ValidOptions(o)
  {
    var raw := RawPeerDelay(p, correction, twoStep);
    if raw.seconds != 0 then st.(peerMeanPathDelay := raw, owd := Cleared(st.owd))
    else st.(owd := Filtered(st.owd, raw.nanoseconds, o.s),
             peerMeanPathDelay := Time(0, Published(st.owd, raw.nanoseconds, o.s)))
  }

  function RawOffset(st: State, o: Options, delayMS: Time): Time {
    if !st.current then Difference(delayMS, Time(0, 0))
    else match o.mechanism {
      case P2P => Difference(delayMS, st.peerMeanPathDelay)
      case E2E => Difference(delayMS, st.meanPathDelay)
      case Disabled => st.offset
    }
  }

  predicate TooLarge(o: Options, offset: Time) {
    offset.seconds != 0 || Abs(offset.nanoseconds) > o.maxDelay
  }

  function DelayMS(send: Time, recv: Time, correction: Time): Time {
    Difference(Difference(recv, send), correction)
  }

  /** The nanoseconds that enter the delay line. */
  function FilteredOffset(st: State, raw: Time): int {
    if st.z1 || !st.current then Quot(raw.nanoseconds, 2) + Quot(st.ofmPrev, 2) else raw.nanoseconds
  }

  function Shifted(zline: seq<int>, x: int): seq<int>
    requires |zline| > 0
  {
    [x] + zline[..|zline| - 1]
  }

  /** updateOffset, for a Sync sent at send and received at recv. */
  function OffsetUpdated(st: State, o: Options, send: Time, recv: Time, correction: Time): State
    requires ValidState(st)
  {
    var ms := DelayMS(send, recv, correction);
    var raw := RawOffset(st, o, ms);
    if TooLarge(o, raw) then st.(delayMS := ms, offset := raw, ofmPrev := 0, offsetFirstUpdated := true)
    else Accepted(st.(delayMS := ms, offset := raw))
  }

  /** The offset has passed the limit: filter it, record it and look at the record. */
  function Accepted(st: State): State
    requires ValidState(st)
  {
    var raw := st.offset;
    var x := FilteredOffset(st, raw);
    var filtering := st.z1 || !st.current;
    var zline := Shifted(st.zline, x);
    st.(offset := Time(raw.seconds, x), offsetFirstUpdated := true, zline := zline, count := st.count + 1,
        ofmY := if filtering then x else st.ofmY, ofmPrev := if filtering then raw.nanoseconds else st.ofmPrev,
        z2 := st.z1, z1 := st.current, current := st.current || (st.count >= OFM_DELAY_LEN + 1 && Syntonizes(zline)))
  }

  // ---- Detecting that the frequencies agree

  /** The largest magnitude of the first n entries and the index that the scan keeps for it. */
  function Extreme(zline: seq<int>, n: nat): (r: (int, int))
    requires n <= |zline|
  {
    if n == 0 then (0, 0)
    else
      var (max, pos) := Extreme(zline, n - 1);
      var a := Abs(zline[n - 1]);
      if a > max then (a, n - 1)
      else if a == max && n - 1 < OFM_DELAY_LEN / 2 then (max, n - 1)
      else (max, pos)
  }

  predicate Syntonizes(zline: seq<int>)
    requires |zline| == OFM_DELAY_LEN
  {
    var (max, pos) := Extreme(zline, OFM_DELAY_LEN);
    max < TIME_DEV && 1 < pos < OFM_DELAY_LEN - 2
  }

  ghost predicate IsPeak(zline: seq<int>, pos: int) {
    0 <= pos < |zline| && forall k :: 0 <= k < |zline| ==> Abs(zline[k]) <= Abs(zline[pos])
  }

  /** The scan finds a peak: the last of the first half if there is one, otherwise the first of the second half. */
  ghost predicate IsChosenPeak(zline: seq<int>, pos: int) {
    && IsPeak(zline, pos)
    && forall k :: 0 <= k < |zline| && IsPeak(zline, k) && k != pos ==>
         if pos < OFM_DELAY_LEN / 2 then k < pos || OFM_DELAY_LEN / 2 <= k else pos < k
  }

  lemma {:induction false} ExtremeIsPeak(zline: seq<int>, n: nat)
    requires 0 < n <= |zline|
    ensures var (max, pos) := Extreme(zline, n);
      IsChosenPeak(zline[..n], pos) && max == Abs(zline[pos])
  {
    var z := zline[..n];
    var (max, pos) := Extreme(zline, n);
    if n == 1 {
      assert Extreme(zline, 0) == (0, 0);
    } else {
      ExtremeIsPeak(zline, n - 1);
      var y := zline[..n - 1];
      var (max', pos') := Extreme(zline, n - 1);
      assert forall k :: 0 <= k < n - 1 ==> z[k] == y[k];
      assert z[n - 1] == zline[n - 1];
      forall k | 0 <= k < n - 1 && IsPeak(z, k)
        ensures IsPeak(y, k)
      {}
    }
  }

  /** The frequencies count as equal exactly when all entries are small and the chosen peak is well inside. */
  lemma SyntonizesIff(zline: seq<int>)
    requires |zline| == OFM_DELAY_LEN
    ensures Syntonizes(zline) <==>
      (forall k :: 0 <= k < OFM_DELAY_LEN ==> Abs(zline[k]) < TIME_DEV)
      && exists p :: 1 < p < OFM_DELAY_LEN - 2 && IsChosenPeak(zline, p)
  {
    hide Extreme;
    ExtremeIsPeak(zline, OFM_DELAY_LEN);
    assert zline[..OFM_DELAY_LEN] == zline;
    var (max, pos) := Extreme(zline, OFM_DELAY_LEN);
    forall p | IsChosenPeak(zline, p)
      ensures IsPeak(zline, p) && p == pos
    {}
  }

  // ---- Steering the clock

  function Clamp(x: int, low: int, high: int): int {
    if x > high then high else if x < low then low else x
  }

  /** adjTickRate: what reaches the tick register. */
  function TickRate(o: Options, tick: int): int {
    Clamp(tick, o.initialTick - ADJ_FREQ_MAX, o.initialTick + ADJ_FREQ_MAX)
  }

  function Attenuation(a: int): int { if a < PI_UNIT then PI_UNIT else a }

  predicate Aborted(st: State, o: Options) {
    o.maxReset != 0 && (st.offset.seconds != 0 || Abs(st.offset.nanoseconds) > o.maxReset)
  }

  /** The second update after the frequencies were found equal. */
  predicate JustSyntonized(st: State) { !st.z2 && st.z1 }

  predicate Jumps(st: State, o: Options) {
    TooLarge(o, st.offset) || JustSyntonized(st)
  }

  function Adjusted(st: State, o: Options, adj: int): State {
    if o.noAdjust then st else st.(tick := TickRate(o, o.initialTick - adj))
  }

  function Drift(st: State, o: Options): int {
    Clamp(st.drift + Quot(st.offset.nanoseconds, Attenuation(o.ai)), -ADJ_FREQ_MAX, ADJ_FREQ_MAX)
  }

  /** A jump is a step of the counter or, if that is not allowed, the fastest slew. */
  function Jumped(st: State, o: Options): State {
    if o.noAdjust then st
    else if !o.noResetClock then
      st.(commands := st.commands + [MoveRtc(Time(-st.offset.seconds, -st.offset.nanoseconds))])
    else
      var adj := if st.offset.nanoseconds > 0 then ADJ_FREQ_MAX else -ADJ_FREQ_MAX;
      Adjusted(st.(drift := adj), o, adj)
  }

  /** updateClock. */
  function ClockUpdated(st: State, o: Options): State {
    if Aborted(st, o) then st
    else if Jumps(st, o) then Jumped(st, o)
    else
      Adjusted(st.(drift := Drift(st, o)), o, Quot(st.offset.nanoseconds, Attenuation(o.ap)) + Drift(st, o))
  }

  /** A jump is made by stepping exactly when both adjusting and resetting are allowed; the step undoes the offset. */
  lemma StepsIff(st: State, o: Options)
    ensures ClockUpdated(st, o).commands != st.commands <==>
      !Aborted(st, o) && Jumps(st, o) && !o.noAdjust && !o.noResetClock
    ensures var c := ClockUpdated(st, o).commands;
      c != st.commands ==>
        |c| == |st.commands| + 1 && c[..|st.commands|] == st.commands
        && c[|st.commands|].MoveRtc? && Nanos(c[|st.commands|].offset) + Nanos(st.offset) == 0
  {
    var c := ClockUpdated(st, o).commands;
    assert c == st.commands || |c| == |st.commands| + 1;
  }

  /** A limit of zero, documented as off, makes every nonzero offset a jump. */
  lemma ZeroMaxDelayIsNotOff(o: Options, offset: Time)
    requires o.maxDelay == 0
    ensures !TooLarge(o, offset) <==> Nanos(offset) == 0 && offset.seconds == 0
  {}

  /** Stopping the counter with a tick of zero runs it at the slowest rate instead. */
  lemma ZeroTickIsSlowest(o: Options)
    ensures TickRate(o, 0) == 0 <==> -ADJ_FREQ_MAX <= o.initialTick <= ADJ_FREQ_MAX
    ensures o.initialTick > ADJ_FREQ_MAX ==> TickRate(o, 0) == o.initialTick - ADJ_FREQ_MAX
  {}

  lemma QuotMonotone(a: int, b: int, c: int)
    requires a <= b && c > 0
    ensures Quot(a, c) <= Quot(b, c)
  {
    if a >= 0 {
      FloorOrder(a, b, c);
    } else if b < 0 {
      FloorOrder(-b, -a, c);
    } else {
      FloorOrder(0, b, c);
      FloorOrder(0, -a, c);
    }
  }

  lemma FloorOrder(a: nat, b: nat, c: int)
    requires a <= b && c > 0
    ensures 0 <= a / c <= b / c
  {
    var x, y := a / c, b / c;
    assert c * x <= b < c * (y + 1);
    ProductOrder(c, x, y + 1);
  }

  /** Negative feedback: of two states that steer, the one whose clock is further ahead gets the slower tick. */
  lemma SteersAgainstOffset(st: State, o: Options, n: int)
    requires n >= st.offset.nanoseconds
    requires var ahead := st.(offset := Time(st.offset.seconds, n));
      !Aborted(st, o) && !Jumps(st, o) && !Aborted(ahead, o) && !Jumps(ahead, o)
    ensures var ahead := st.(offset := Time(st.offset.seconds, n));
      ClockUpdated(ahead, o).tick <= ClockUpdated(st, o).tick
      && ClockUpdated(ahead, o).drift >= ClockUpdated(st, o).drift
  {
    hide Quot;
    QuotMonotone(st.offset.nanoseconds, n, Attenuation(o.ai));
    QuotMonotone(st.offset.nanoseconds, n, Attenuation(o.ap));
  }

  /**
   * The PI law. An update that neither aborts nor jumps moves the drift by the truncated integral share of the offset
   * and sets the tick off the initial one by the truncated proportional share and the drift, both within their limits.
   */
  lemma SteeringLaw(st: State, o: Options)
    requires !Aborted(st, o) && !Jumps(st, o)
    ensures var r := ClockUpdated(st, o);
      var p, i := Quot(st.offset.nanoseconds, if o.ap < 1 then 1 else o.ap), Quot(st.offset.nanoseconds, if o.ai < 1 then 1 else o.ai);
      && (-ADJ_FREQ_MAX <= st.drift + i <= ADJ_FREQ_MAX ==> r.drift - st.drift == i)
      && (st.drift + i > ADJ_FREQ_MAX ==> r.drift == ADJ_FREQ_MAX) && (st.drift + i < -ADJ_FREQ_MAX ==> r.drift == -ADJ_FREQ_MAX)
      && (o.noAdjust ==> r.tick == st.tick)
      && (!o.noAdjust && -ADJ_FREQ_MAX <= p + r.drift <= ADJ_FREQ_MAX ==> o.initialTick - r.tick == p + r.drift)
      && (!o.noAdjust && p + r.drift > ADJ_FREQ_MAX ==> o.initialTick - r.tick == ADJ_FREQ_MAX)
      && (!o.noAdjust && p + r.drift < -ADJ_FREQ_MAX ==> o.initialTick - r.tick == -ADJ_FREQ_MAX)
      && r == st.(drift := r.drift, tick := r.tick)
  {
    hide Quot;
  }

  /** A jump that may not step the counter slews it as fast as allowed: back if the clock is ahead, otherwise on. */
  lemma SlewLaw(st: State, o: Options)
    requires !Aborted(st, o) && Jumps(st, o) && !o.noAdjust && o.noResetClock
    ensures var r, way := ClockUpdated(st, o), if st.offset.nanoseconds > 0 then 1 else -1;
      && r.drift == way * ADJ_FREQ_MAX && r.tick == o.initialTick - way * ADJ_FREQ_MAX
      && r == st.(drift := r.drift, tick := r.tick)
  {}

  // ---- Runs

  datatype Event =
    | Init(preset: Time)
    | DelayResp(send: Time, recv: Time, correction: Time)
    | PeerResp(times: PeerTimes, correction: Time, twoStep: bool)
    | Sync(send: Time, recv: Time, correction: Time)
    | Steer

  function Zeros(n: nat): (z: seq<int>)
    ensures |z| == n && forall k :: 0 <= k < n ==> z[k] == 0
  {
    if n == 0 then [] else Zeros(n - 1) + [0]
  }

  /** All memory zero. */
  function PoweredUp(): (st: State)
    ensures ValidState(st)
  {
    var zero := Time(0, 0);
    WordSize();
    State(DelayFilter(0, 0, 0), zero, zero, zero, zero, zero, 0, 0, false, 0, 0, [], Zeros(OFM_DELAY_LEN), 0, false, false, false)
  }

  /** The time that initClock presets the counter to: the operating system's, as TAI if the UTC offset is known. */
  function PresetTime(osTime: Time, utcValid: bool, utcOffset: int): Time {
    Time(osTime.seconds + if utcValid then utcOffset else 0, osTime.nanoseconds)
  }

  /** initClock: the delay filter keeps its output and last sample, only its gain is reset. */
  function Initialized(st: State, o: Options, preset: Time): State {
    var zero := Time(0, 0);
    State(st.owd.(sExp := 0), zero, zero, zero, zero, zero, 0, 0, false, 0, TickRate(o, o.initialTick),
          st.commands + [ClearRtc, MoveRtc(preset)],
          Zeros(OFM_DELAY_LEN), 0, false, false, false)
  }

  function Apply(st: State, o: Options, e: Event): State
    requires ValidState(st) && ValidOptions(o)
  {
    match e {
      case Init(preset) => Initialized(st, o, preset)
      case DelayResp(send, recv, correction) => DelayUpdated(st, o, send, recv, correction)
      case PeerResp(times, correction, twoStep) => PeerDelayUpdated(st, o, times, correction, twoStep)
      case Sync(send, recv, correction) => OffsetUpdated(st, o, send, recv, correction)
      case Steer => ClockUpdated(st, o)
    }
  }

  function Run(st: State, o: Options, events: seq<Event>): State
    requires ValidState(st) && ValidOptions(o)
    decreases |events|
  {
    if events == [] then st
    else ApplyKeepsWidth(st, o, events[0]); Run(Apply(st, o, events[0]), o, events[1..])
  }

  lemma OneEvent(st: State, o: Options, e: seq<Event>) returns (next: State, rest: seq<Event>)
    requires ValidState(st) && ValidOptions(o) && e != []
    ensures next == Apply(st, o, e[0]) && rest == e[1..] && ValidState(next) && Run(st, o, e) == Run(next, o, rest)
  {
    hide ValidState, Apply;
    ApplyKeepsWidth(st, o, e[0]);
    next, rest := Apply(st, o, e[0]), e[1..];
  }

  /** So many steering updates in a row. */
  function Steering(n: nat): seq<Event> { seq(n, _ => Steer) }

  lemma ClampStep(start: int, n: nat, i: int)
    requires -ADJ_FREQ_MAX <= start <= ADJ_FREQ_MAX
    ensures var d := Clamp(start + i, -ADJ_FREQ_MAX, ADJ_FREQ_MAX);
      Clamp(d + n * i, -ADJ_FREQ_MAX, ADJ_FREQ_MAX) == Clamp(start + (n + 1) * i, -ADJ_FREQ_MAX, ADJ_FREQ_MAX)
  {
    assert (n + 1) * i == n * i + i;
    if i >= 0 {
      assert n * i >= 0;
    } else {
      assert n * i <= 0;
    }
  }

  /** The integrator: n updates at one offset move the drift n times by the same share, up to its limit. */
  lemma {:induction false} DriftAccumulates(st: State, o: Options, n: nat)
    requires ValidState(st) && ValidOptions(o) && !Aborted(st, o) && !Jumps(st, o)
    requires -ADJ_FREQ_MAX <= st.drift <= ADJ_FREQ_MAX
    ensures var r, i := Run(st, o, Steering(n)), Quot(st.offset.nanoseconds, if o.ai < 1 then 1 else o.ai);
      && r == st.(drift := r.drift, tick := r.tick)
      && r.drift == Clamp(st.drift + n * i, -ADJ_FREQ_MAX, ADJ_FREQ_MAX)
    decreases n
  {
    if n > 0 {
      hide Quot, ClockUpdated, ValidState;
      var next, rest := OneEvent(st, o, Steering(n));
      assert rest == Steering(n - 1);
      SteeringLaw(st, o);
      DriftAccumulates(next, o, n - 1);
      ClampStep(st.drift, n - 1, Quot(st.offset.nanoseconds, if o.ai < 1 then 1 else o.ai));
    }
  }

  lemma HalfIsBelowSecond(x: Time, y: Time)
    ensures Abs(Half(Difference(x, y)).nanoseconds) < BILLION
  {
    hide Difference, FromNanos, Half;
    DifferenceIsExact(x, y);
    ValueOfFromNanos(Nanos(x) - Nanos(y));
    HalfTruncates(Difference(x, y));
    ValueOfFromNanos(Quot(Nanos(Difference(x, y)), 2));
  }

  /** What an event feeds into the delay filter. */
  function Sample(st: State, o: Options, e: Event): int {
    match e {
      case DelayResp(send, recv, correction) =>
        var sm := Difference(recv, send);
        var raw := RawMeanDelay(sm, st.delayMS, correction);
        if !st.offsetFirstUpdated || DelayRejected(o, sm) || raw.seconds != 0 || raw.nanoseconds < 0 then 0
        else raw.nanoseconds
      case PeerResp(times, correction, twoStep) =>
        var raw := RawPeerDelay(times, correction, twoStep);
        if raw.seconds != 0 then 0 else raw.nanoseconds
      case _ => 0
    }
  }

  lemma SampleBelowSecond(st: State, o: Options, e: Event)
    ensures Abs(Sample(st, o, e)) < BILLION
  {
    hide Half, Difference, Sum, DelayRejected;
    match e {
      case DelayResp(send, recv, correction) =>
        HalfIsBelowSecond(Sum(Difference(recv, send), st.delayMS), correction);
      case PeerResp(p, correction, twoStep) =>
        HalfIsBelowSecond(Sum(Difference(p.respRecv, p.respSend), Difference(p.reqRecv, p.reqSend)), correction);
        HalfIsBelowSecond(Difference(p.respRecv, p.reqSend), correction);
      case _ =>
    }
  }

  /** Filter state within m, and the two quantities that the original clamps within their limits. */
  predicate Bounded(st: State, o: Options, m: nat) {
    && Abs(st.owd.y) <= m && Abs(st.owd.nsecPrev) <= m && |st.zline| == OFM_DELAY_LEN
    && -ADJ_FREQ_MAX <= st.drift <= ADJ_FREQ_MAX
    && o.initialTick - ADJ_FREQ_MAX <= st.tick <= o.initialTick + ADJ_FREQ_MAX
  }

  /** The filter state of every event is untouched, cleared, or one filter step on the event's sample. */
  lemma FilterOfEvent(st: State, o: Options, e: Event)
    requires ValidState(st) && ValidOptions(o)
    ensures var f := Apply(st, o, e).owd;
      f == st.owd || f == Cleared(st.owd) || f == st.owd.(sExp := 0) || f == Filtered(st.owd, Sample(st, o, e), o.s)
  {
    hide Half, Difference, Sum, DelayRejected, Filtered, Published, Accepted, ClockUpdated;
    if e == Steer {
      SteerKeepsDelays(st, o);
    } else if e.Sync? {
      SyncKeepsDelays(st, o, e.send, e.recv, e.correction);
    }
  }

  lemma SteerKeepsDelays(st: State, o: Options)
    ensures ClockUpdated(st, o) == st.(drift := ClockUpdated(st, o).drift, tick := ClockUpdated(st, o).tick,
                                       commands := ClockUpdated(st, o).commands)
    ensures -ADJ_FREQ_MAX <= st.drift <= ADJ_FREQ_MAX ==> -ADJ_FREQ_MAX <= ClockUpdated(st, o).drift <= ADJ_FREQ_MAX
    ensures ClockUpdated(st, o).tick == st.tick
      || o.initialTick - ADJ_FREQ_MAX <= ClockUpdated(st, o).tick <= o.initialTick + ADJ_FREQ_MAX
  {
    hide Quot;
  }

  lemma SyncKeepsDelays(st: State, o: Options, send: Time, recv: Time, correction: Time)
    requires ValidState(st)
    ensures var r := OffsetUpdated(st, o, send, recv, correction);
      r.owd == st.owd && |r.zline| == |st.zline| && r.drift == st.drift && r.tick == st.tick && r.commands == st.commands
  {
    hide Difference, Syntonizes, Quot;
  }

  lemma ApplyKeepsWidth(st: State, o: Options, e: Event)
    requires ValidState(st) && ValidOptions(o)
    ensures ValidState(Apply(st, o, e))
  {
    hide Filtered, Cleared, Sample, Apply;
    WordSize();
    SampleBelowSecond(st, o, e);
    FilterStaysInRange(st.owd, Sample(st, o, e), o.s, INT32_MAX);
    FilterOfEvent(st, o, e);
    ClearedKeepsOutput(st.owd);
    LineOfEvent(st, o, e);
  }

  lemma ClearedKeepsOutput(f: DelayFilter)
    ensures Cleared(f).y == f.y && Cleared(f).nsecPrev == 0
  {}

  lemma LineOfEvent(st: State, o: Options, e: Event)
    requires ValidState(st) && ValidOptions(o)
    ensures |Apply(st, o, e).zline| == OFM_DELAY_LEN
  {
    hide Half, Difference, Sum, DelayRejected, Filtered, Published, ClockUpdated, OffsetUpdated;
    if e == Steer {
      SteerKeepsDelays(st, o);
    } else if e.Sync? {
      SyncKeepsDelays(st, o, e.send, e.recv, e.correction);
    }
  }

  lemma ClampsOfEvent(st: State, o: Options, e: Event)
    requires ValidState(st) && ValidOptions(o)
    requires -ADJ_FREQ_MAX <= st.drift <= ADJ_FREQ_MAX
    requires o.initialTick - ADJ_FREQ_MAX <= st.tick <= o.initialTick + ADJ_FREQ_MAX
    ensures var r := Apply(st, o, e);
      -ADJ_FREQ_MAX <= r.drift <= ADJ_FREQ_MAX
      && o.initialTick - ADJ_FREQ_MAX <= r.tick <= o.initialTick + ADJ_FREQ_MAX
  {
    hide Half, Difference, Sum, DelayRejected, Filtered, Published, ClockUpdated, OffsetUpdated;
    if e == Steer {
      SteerKeepsDelays(st, o);
    } else if e.Sync? {
      SyncKeepsDelays(st, o, e.send, e.recv, e.correction);
    }
  }

  /** The largest sample magnitude of a run. */
  function PeakSample(st: State, o: Options, events: seq<Event>): nat
    requires ValidState(st) && ValidOptions(o)
    decreases |events|
  {
    if events == [] then 0
    else
      ApplyKeepsWidth(st, o, events[0]);
      var rest := PeakSample(Apply(st, o, events[0]), o, events[1..]);
      if Abs(Sample(st, o, events[0])) > rest then Abs(Sample(st, o, events[0])) else rest
  }

  lemma EventIsBounded(st: State, o: Options, e: Event, m: nat)
    requires ValidState(st) && ValidOptions(o) && Bounded(st, o, m) && Abs(Sample(st, o, e)) <= m
    ensures Bounded(Apply(st, o, e), o, m)
  {
    hide Filtered, Cleared, Sample, Apply;
    FilterStaysInRange(st.owd, Sample(st, o, e), o.s, m);
    FilterOfEvent(st, o, e);
    ClearedKeepsOutput(st.owd);
    LineOfEvent(st, o, e);
    ClampsOfEvent(st, o, e);
  }

  /** No run drives the filter beyond its largest sample, the drift or the tick beyond their limits. */
  lemma {:induction false} RunIsBounded(st: State, o: Options, events: seq<Event>, m: nat)
    requires ValidState(st) && ValidOptions(o) && Bounded(st, o, m) && PeakSample(st, o, events) <= m
    ensures Bounded(Run(st, o, events), o, m)
    decreases |events|
  {
    if events != [] {
      hide Sample, Apply, Bounded;
      EventIsBounded(st, o, events[0], m);
      ApplyKeepsWidth(st, o, events[0]);
      RunIsBounded(Apply(st, o, events[0]), o, events[1..], m);
    }
  }

  lemma {:induction false} PeakBelowSecond(st: State, o: Options, events: seq<Event>)
    requires ValidState(st) && ValidOptions(o)
    ensures PeakSample(st, o, events) < BILLION
    decreases |events|
  {
    if events != [] {
      hide Sample, Apply;
      SampleBelowSecond(st, o, events[0]);
      ApplyKeepsWidth(st, o, events[0]);
      PeakBelowSecond(Apply(st, o, events[0]), o, events[1..]);
    }
  }

  // ---- The history behind the syntonised flag

  predicate IsAccepted(st: State, o: Options, e: Event) {
    e.Sync? && !TooLarge(o, RawOffset(st, o, DelayMS(e.send, e.recv, e.correction)))
  }

  /** The offsets accepted since the last initialisation, oldest first. */
  function Recorded(h: seq<int>, st: State, o: Options, e: Event): seq<int> {
    if e.Init? then []
    else if IsAccepted(st, o, e) then h + [FilteredOffset(st, RawOffset(st, o, DelayMS(e.send, e.recv, e.correction)))]
    else h
  }

  function Newest(h: seq<int>, k: nat): int {
    if k < |h| then h[|h| - 1 - k] else 0
  }

  /** How far syntonisation has come: FFF, TFF, TTF, TTT. */
  function Level(st: State): nat {
    (if st.current then 1 else 0) + (if st.z1 then 1 else 0) + (if st.z2 then 1 else 0)
  }

  /** The delay line is the newest part of the history, and the three flags are one delayed signal. */
  predicate Matches(st: State, h: seq<int>) {
    && |st.zline| == OFM_DELAY_LEN && st.count == |h|
    && (forall k :: 0 <= k < OFM_DELAY_LEN ==> st.zline[k] == Newest(h, k))
    && (st.z2 ==> st.z1) && (st.z1 ==> st.current)
    && (st.current ==> |h| > OFM_DELAY_LEN + 1)
  }

  lemma AcceptedMatches(st: State, h: seq<int>)
    requires ValidState(st) && Matches(st, h)
    ensures Matches(Accepted(st), h + [FilteredOffset(st, st.offset)])
  {
    hide Quot, Syntonizes;
    var x := FilteredOffset(st, st.offset);
    var z, g := Accepted(st).zline, h + [x];
    assert |z| == OFM_DELAY_LEN;
    forall k | 0 <= k < OFM_DELAY_LEN
      ensures z[k] == Newest(g, k)
    {
      if k > 0 {
        assert z[k] == st.zline[k - 1] == Newest(h, k - 1);
      }
    }
  }

  lemma SyncMatches(st: State, o: Options, e: Event, h: seq<int>)
    requires ValidState(st) && ValidOptions(o) && Matches(st, h) && e.Sync?
    ensures Matches(OffsetUpdated(st, o, e.send, e.recv, e.correction), Recorded(h, st, o, e))
  {
    hide Difference, DelayMS, RawOffset, Accepted, FilteredOffset, TooLarge;
    var ms := DelayMS(e.send, e.recv, e.correction);
    AcceptedMatches(st.(delayMS := ms, offset := RawOffset(st, o, ms)), h);
    FilteredIgnoresDelay(st, ms, RawOffset(st, o, ms));
  }

  lemma OtherEventsKeepLine(st: State, o: Options, e: Event)
    requires ValidState(st) && ValidOptions(o) && !e.Sync? && !e.Init?
    ensures var r := Apply(st, o, e);
      r.zline == st.zline && r.count == st.count && r.current == st.current && r.z1 == st.z1 && r.z2 == st.z2
  {
    hide Half, Difference, Sum, DelayRejected, Filtered, Published, ClockUpdated, OffsetUpdated, Initialized;
    if e == Steer {
      SteerKeepsDelays(st, o);
    }
  }

  lemma EventMatches(st: State, o: Options, e: Event, h: seq<int>)
    requires ValidState(st) && ValidOptions(o) && Matches(st, h)
    ensures Matches(Apply(st, o, e), Recorded(h, st, o, e))
  {
    if e.Init? {
      hide DelayUpdated, PeerDelayUpdated, OffsetUpdated, ClockUpdated;
    } else if e.Sync? {
      hide DelayUpdated, PeerDelayUpdated, OffsetUpdated, ClockUpdated, Matches, Recorded;
      SyncMatches(st, o, e, h);
    } else {
      hide Apply, IsAccepted;
      OtherEventsKeepLine(st, o, e);
      NotSyncNotAccepted(st, o, e);
    }
  }

  lemma NotSyncNotAccepted(st: State, o: Options, e: Event)
    ensures IsAccepted(st, o, e) ==> e.Sync?
  {
    hide TooLarge;
  }

  lemma FilteredIgnoresDelay(st: State, ms: Time, raw: Time)
    ensures FilteredOffset(st.(delayMS := ms, offset := raw), raw) == FilteredOffset(st, raw)
  {}

  function HistoryOf(h: seq<int>, st: State, o: Options, events: seq<Event>): seq<int>
    requires ValidState(st) && ValidOptions(o)
    decreases |events|
  {
    if events == [] then h
    else
      ApplyKeepsWidth(st, o, events[0]);
      HistoryOf(Recorded(h, st, o, events[0]), Apply(st, o, events[0]), o, events[1..])
  }

  /** In every run the delay line holds exactly the newest accepted offsets. */
  lemma {:induction false} RunMatches(st: State, o: Options, events: seq<Event>, h: seq<int>)
    requires ValidState(st) && ValidOptions(o) && Matches(st, h)
    ensures Matches(Run(st, o, events), HistoryOf(h, st, o, events))
    decreases |events|
  {
    if events != [] {
      hide Apply, Matches, Recorded;
      EventMatches(st, o, events[0], h);
      ApplyKeepsWidth(st, o, events[0]);
      RunMatches(Apply(st, o, events[0]), o, events[1..], Recorded(h, st, o, events[0]));
    }
  }

  lemma InitializedMatches(st: State, o: Options, preset: Time)
    ensures Matches(Initialized(st, o, preset), [])
  {}

  /** The flags only advance, one per accepted Sync, until the next initialisation. */
  lemma LevelOfEvent(st: State, o: Options, e: Event, h: seq<int>)
    requires ValidState(st) && ValidOptions(o) && Matches(st, h) && !e.Init?
    ensures !IsAccepted(st, o, e) ==> Level(Apply(st, o, e)) == Level(st)
    ensures IsAccepted(st, o, e) ==>
      Level(Apply(st, o, e)) == (if Level(st) == 0 then (if Apply(st, o, e).current then 1 else 0)
                                 else if Level(st) < 3 then Level(st) + 1 else 3)
    ensures JustSyntonized(Apply(st, o, e)) <==> Level(Apply(st, o, e)) == 2
  {
    hide Half, Difference, Sum, DelayRejected, Filtered, Published, ClockUpdated, FilteredOffset, TooLarge, Syntonizes;
    EventMatches(st, o, e, h);
    if e == Steer {
      SteerKeepsDelays(st, o);
    }
  }

  /** The newest offsets of a history, newest first, as the delay line shows them. */
  function Line(h: seq<int>): (z: seq<int>)
    ensures |z| == OFM_DELAY_LEN && forall k :: 0 <= k < OFM_DELAY_LEN ==> z[k] == Newest(h, k)
  {
    seq(OFM_DELAY_LEN, k requires 0 <= k => Newest(h, k))
  }

  /**
   * The flag turns on with an accepted offset exactly if enough were accepted, all in the line are small, and the peak
   * that the scan chooses is strictly inside.
   */
  lemma TurnsOnIff(st: State, o: Options, e: Event, h: seq<int>)
    requires ValidState(st) && ValidOptions(o) && Matches(st, h) && !e.Init? && !st.current
    ensures var z := Line(Recorded(h, st, o, e));
      Apply(st, o, e).current <==>
        && IsAccepted(st, o, e) && |h| >= OFM_DELAY_LEN + 1
        && (forall k :: 0 <= k < OFM_DELAY_LEN ==> Abs(z[k]) < TIME_DEV)
        && exists p :: 1 < p < OFM_DELAY_LEN - 2 && IsChosenPeak(z, p)
  {
    hide Newest, Recorded, Extreme, IsAccepted, IsChosenPeak, Apply;
    EventMatches(st, o, e, h);
    TurnsOnBySync(st, o, e);
    var z := Line(Recorded(h, st, o, e));
    assert Apply(st, o, e).zline == z;
    SyntonizesIff(z);
  }

  lemma TurnsOnBySync(st: State, o: Options, e: Event)
    requires ValidState(st) && ValidOptions(o) && !e.Init? && !st.current
    ensures var r := Apply(st, o, e);
      |r.zline| == OFM_DELAY_LEN
      && (r.current <==> IsAccepted(st, o, e) && st.count >= OFM_DELAY_LEN + 1 && Syntonizes(r.zline))
  {
    hide Half, Difference, Sum, DelayRejected, Filtered, Published, ClockUpdated, FilteredOffset, TooLarge, Syntonizes;
    LineOfEvent(st, o, e);
    if e == Steer {
      SteerKeepsDelays(st, o);
    }
  }

  /** How many accepted Syncs leave the servo in the state that forces a clock step. */
  function ForcedSteps(st: State, o: Options, events: seq<Event>): nat
    requires ValidState(st) && ValidOptions(o)
    decreases |events|
  {
    if events == [] then 0
    else
      ApplyKeepsWidth(st, o, events[0]);
      var next := Apply(st, o, events[0]);
      (if IsAccepted(st, o, events[0]) && JustSyntonized(next) then 1 else 0) + ForcedSteps(next, o, events[1..])
  }

  /** Between initialisations exactly one Sync forces the step that ends syntonisation. */
  lemma {:induction false} ForcedStepIsUnique(st: State, o: Options, events: seq<Event>, h: seq<int>)
    requires ValidState(st) && ValidOptions(o) && Matches(st, h)
    requires forall k :: 0 <= k < |events| ==> !events[k].Init?
    ensures ForcedSteps(st, o, events) == (if Level(st) < 2 <= Level(Run(st, o, events)) then 1 else 0)
    ensures Level(st) <= Level(Run(st, o, events))
    decreases |events|
  {
    if events != [] {
      hide Apply, Matches, Recorded, Level, JustSyntonized, IsAccepted;
      var e := events[0];
      LevelOfEvent(st, o, e, h);
      EventMatches(st, o, e, h);
      ApplyKeepsWidth(st, o, e);
      LevelAtMostThree(st);
      LevelAtMostThree(Apply(st, o, e));
      ForcedStepIsUnique(Apply(st, o, e), o, events[1..], Recorded(h, st, o, e));
    }
  }

  lemma LevelAtMostThree(st: State)
    ensures Level(st) <= 3
  {}

  // ---- Recovering the delay and the offset

  /** The Sync half: what the slave sees is the path delay plus its own offset, the correction taken out. */
  lemma SyncRecovery(send: Time, recv: Time, correction: Time, delay: int, ahead: int)
    requires Nanos(recv) == Nanos(send) + delay + Nanos(correction) + ahead
    ensures DelayMS(send, recv, correction) == FromNanos(delay + ahead)
  {
    hide Difference, FromNanos, Nanos;
    DifferenceIsExact(recv, send);
    ValueOfFromNanos(Nanos(recv) - Nanos(send));
    DifferenceIsExact(Difference(recv, send), correction);
  }

  /** The Delay_Req half: the offset cancels, and half of the round trip remains. */
  lemma DelayReqRecovery(delayMS: Time, send: Time, recv: Time, correction: Time, ms: int, sm: int, ahead: int)
    requires Nanos(delayMS) == ms + ahead
    requires Nanos(recv) == Nanos(send) + sm + Nanos(correction) - ahead
    ensures RawMeanDelay(Difference(recv, send), delayMS, correction) == FromNanos(Quot(ms + sm, 2))
  {
    hide Difference, Sum, Half, FromNanos, Nanos, Quot;
    var d := Difference(recv, send);
    DifferenceIsExact(recv, send);
    ValueOfFromNanos(Nanos(recv) - Nanos(send));
    SumIsExact(d, delayMS);
    ValueOfFromNanos(Nanos(d) + Nanos(delayMS));
    var total := Difference(Sum(d, delayMS), correction);
    DifferenceIsExact(Sum(d, delayMS), correction);
    ValueOfFromNanos(ms + sm);
    assert Nanos(total) == ms + sm;
    HalfTruncates(total);
  }

  lemma FirstBlend(f: DelayFilter, ns: int, s: nat)
    requires s <= 30 && Abs(f.y) < Pow2(31) && f.sExp < 1
    ensures Published(f, ns, s) == if f.nsecPrev == 0 then ns else Quot(ns, 2) + Quot(f.nsecPrev, 2)
  {
    hide Stiffness, Pow2;
    assert NextExp(f.sExp, Stiffness(f.y, s)) == 1;
    assert Quot(0, 1) == 0 && Quot(Quot(ns, 2) + Quot(f.nsecPrev, 2), 1) == Quot(ns, 2) + Quot(f.nsecPrev, 2);
  }

  /**
   * The first delay that a freshly initialised filter publishes is the sample itself if and only if the filter holds no
   * sample from before, or one that happens to have the same half.
   */
  lemma FirstDelayAfterInitIff(f: DelayFilter, ns: int, s: nat)
    requires s <= 30 && Abs(f.y) < Pow2(31) && f.sExp < 1
    ensures Published(f, ns, s) == ns <==> f.nsecPrev == 0 || Quot(f.nsecPrev, 2) == ns - Quot(ns, 2)
  {
    hide Published, Quot;
    FirstBlend(f, ns, s);
  }

  /** Initialisation does not forget the last sample: after a change of master it still enters the first delay. */
  lemma InitKeepsLastSample(st: State, o: Options, preset: Time)
    ensures var f := Initialized(st, o, preset).owd;
      f.nsecPrev == st.owd.nsecPrev && f.y == st.owd.y && f.sExp < 1
  {}

  const NO_TIME := Time(0, 0)

  /** What a port that turns slave has its servo do until the first delay, on a path of so many nanoseconds. */
  function FirstExchange(preset: Time, path: nat): seq<Event> {
    [Init(preset), Sync(NO_TIME, Time(0, path), NO_TIME), Steer, DelayResp(NO_TIME, Time(0, path), NO_TIME)]
  }

  lemma FourEvents(st: State, o: Options, preset: Time, path: nat, rest: seq<Event>) returns (s2: State, s4: State)
    requires ValidState(st) && ValidOptions(o)
    ensures ValidState(Initialized(st, o, preset))
    ensures s2 == OffsetUpdated(Initialized(st, o, preset), o, NO_TIME, Time(0, path), NO_TIME)
    ensures ValidState(s2) && ValidState(ClockUpdated(s2, o)) && ValidState(s4)
    ensures s4 == DelayUpdated(ClockUpdated(s2, o), o, NO_TIME, Time(0, path), NO_TIME)
    ensures Run(st, o, FirstExchange(preset, path) + rest) == Run(s4, o, rest)
  {
    hide ValidState, Initialized, OffsetUpdated, ClockUpdated, DelayUpdated;
    var e := FirstExchange(preset, path) + rest;
    var s1, e1 := OneEvent(st, o, e);
    var e2, s3, e3, e4;
    s2, e2 := OneEvent(s1, o, e1);
    s3, e3 := OneEvent(s2, o, e2);
    s4, e4 := OneEvent(s3, o, e3);
    assert e4 == rest;
  }

  lemma SteeringKeepsDelays(st: State, o: Options)
    ensures var r := ClockUpdated(st, o);
      r.owd == st.owd && r.delayMS == st.delayMS && r.offsetFirstUpdated == st.offsetFirstUpdated
  {
    hide Quot, TickRate, Drift;
  }

  /** On a symmetric path the filter's sample is the path delay. */
  lemma FirstExchangeFilters(st: State, o: Options, preset: Time, path: nat, rest: seq<Event>) returns (r: State)
    requires ValidState(st) && ValidOptions(o) && path < BILLION && (o.maxDelay == 0 || path <= o.maxDelay)
    ensures ValidState(r) && Run(st, o, FirstExchange(preset, path) + rest) == Run(r, o, rest)
    ensures var f := st.owd.(sExp := 0);
      r.owd == Filtered(f, path, o.s) && r.meanPathDelay == Time(0, Published(f, path, o.s))
  {
    hide ValidState, OffsetUpdated, ClockUpdated, Filtered, Published, FromNanos, RawMeanDelay, Difference, DelayMS, Quot;
    var s2, s4 := FourEvents(st, o, preset, path, rest);
    r := s4;
    var s1 := Initialized(st, o, preset);
    SyncKeepsDelays(s1, o, NO_TIME, Time(0, path), NO_TIME);
    SyncRecords(s1, o, NO_TIME, Time(0, path), NO_TIME);
    SteeringKeepsDelays(s2, o);
    NanosOfShort(Time(0, path));
    NanosOfShort(NO_TIME);
    SyncRecovery(NO_TIME, Time(0, path), NO_TIME, path, 0);
    ValueOfFromNanos(path);
    DelayReqRecovery(s2.delayMS, NO_TIME, Time(0, path), NO_TIME, path, path, 0);
    HalfOfNat(path + path);
    DifferenceIsExact(Time(0, path), NO_TIME);
    ShortTime(path);
  }

  lemma ShortTime(path: nat)
    requires path < BILLION
    ensures FromNanos(path) == Time(0, path)
  {}

  /**
   * A run from power-up in which a port follows first a master at one distance and then one at another: the first delay
   * it publishes for the second is that of its path if and only if the first path was none, or happens to have the same
   * half.
   */
  lemma StaleSampleRun(o: Options, preset: Time, first: nat, second: nat)
    requires ValidOptions(o) && first < BILLION && second < BILLION
    requires o.maxDelay == 0 || (first <= o.maxDelay && second <= o.maxDelay)
    ensures var r := Run(PoweredUp(), o, FirstExchange(preset, first) + FirstExchange(preset, second));
      && r.meanPathDelay == Time(0, if first == 0 then second else second / 2 + first / 2)
      && (r.meanPathDelay == Time(0, second) <==> first == 0 || first / 2 == second - second / 2)
  {
    hide ValidState, Run, FirstExchange, Filtered, Stiffness, Quot;
    var r1 := FirstExchangeFilters(PoweredUp(), o, preset, first, FirstExchange(preset, second));
    FilteredKeepsSample(PoweredUp().owd.(sExp := 0), first, o.s);
    var r2 := FirstExchangeFilters(r1, o, preset, second, []);
    assert FirstExchange(preset, second) + [] == FirstExchange(preset, second);
    assert Run(r2, o, []) == r2 by { NoEvents(r2, o); }
    FilterOfValid(r1);
    FirstBlend(r1.owd.(sExp := 0), second, o.s);
    HalfOfNat(first);
    HalfOfNat(second);
  }

  lemma FilterOfValid(st: State)
    requires ValidState(st)
    ensures Abs(st.owd.y) < Pow2(31)
  {}

  lemma NoEvents(st: State, o: Options)
    requires ValidState(st) && ValidOptions(o)
    ensures Run(st, o, []) == st
  {}

  lemma FilteredKeepsSample(f: DelayFilter, ns: int, s: nat)
    requires s <= 30 && Abs(f.y) < Pow2(31)
    ensures Filtered(f, ns, s).nsecPrev == ns
  {
    hide Stiffness, Blend;
  }

  /** What a filter publishes for the sample mean: the sample or a weighted mean with what it holds. */
  predicate PublishedFor(f: DelayFilter, s: nat, mean: int, published: int)
    requires s <= 30 && Abs(f.y) < Pow2(31)
  {
    var e := NextExp(f.sExp, Stiffness(f.y, s));
    && published == Published(f, mean, s)
    && (f.nsecPrev == 0 ==> published == mean)
    && (f.nsecPrev != 0 ==> Abs(2 * (e * published) - (2 * ((e - 1) * f.y) + mean + f.nsecPrev)) < 4 * e)
    && (f.sExp < 1 ==>
          (published == mean <==> f.nsecPrev == 0 || Quot(f.nsecPrev, 2) == mean - Quot(mean, 2)))
  }

  lemma SampleIsPublishedFor(f: DelayFilter, s: nat, mean: int)
    requires s <= 30 && Abs(f.y) < Pow2(31)
    ensures PublishedFor(f, s, mean, Published(f, mean, s))
  {
    hide Stiffness, Pow2, Quot, Blend;
    BlendIsWeightedMean(f.y, mean, f.nsecPrev, NextExp(f.sExp, Stiffness(f.y, s)));
    if f.sExp < 1 {
      FirstDelayAfterInitIff(f, mean, s);
    }
  }

  lemma SampleIsPublished(st: State, o: Options, send: Time, recv: Time, correction: Time, mean: nat)
    requires ValidState(st) && ValidOptions(o) && st.offsetFirstUpdated
    requires !DelayRejected(o, Difference(recv, send)) && mean < BILLION
    requires RawMeanDelay(Difference(recv, send), st.delayMS, correction) == FromNanos(mean)
    ensures DelayUpdated(st, o, send, recv, correction).meanPathDelay == Time(0, Published(st.owd, mean, o.s))
  {
    hide Difference, DelayRejected, RawMeanDelay, Filtered, Published;
    assert FromNanos(mean) == Time(0, mean);
  }

  /** A Sync and a Delay_Req/Delay_Resp exchange: the sample is half the round trip. */
  lemma ExchangePublishes(st: State, o: Options, t1: Time, t2: Time, c1: Time, t3: Time, t4: Time, c2: Time,
                          ms: nat, sm: nat, ahead: int)
    requires ValidState(st) && ValidOptions(o) && !DelayRejected(o, Difference(t4, t3))
    requires Nanos(t2) == Nanos(t1) + ms + Nanos(c1) + ahead
    requires Nanos(t4) == Nanos(t3) + sm + Nanos(c2) - ahead
    requires ms + sm < BILLION
    ensures ValidState(OffsetUpdated(st, o, t1, t2, c1))
    ensures DelayUpdated(OffsetUpdated(st, o, t1, t2, c1), o, t3, t4, c2).meanPathDelay
         == Time(0, Published(st.owd, (ms + sm) / 2, o.s))
  {
    hide Difference, FromNanos, Nanos, DelayRejected, DelayUpdated, DelayMS, RawMeanDelay, OffsetUpdated, Published, Pow2, Quot;
    var s1 := OffsetUpdated(st, o, t1, t2, c1);
    SyncKeepsDelays(st, o, t1, t2, c1);
    SyncRecords(st, o, t1, t2, c1);
    SyncRecovery(t1, t2, c1, ms, ahead);
    ValueOfFromNanos(ms + ahead);
    DelayReqRecovery(s1.delayMS, t3, t4, c2, ms, sm, ahead);
    HalfOfNat(ms + sm);
    SampleIsPublished(s1, o, t3, t4, c2, (ms + sm) / 2);
  }

  /**
   * A Sync, a Delay_Req/Delay_Resp exchange and a second Sync. With delays ms and sm and any corrections, the filter's
   * sample is half the round trip, and the next offset is the true one plus the path delay less what the filter made
   * of that sample.
   */
  lemma EndToEndRecovery(st: State, o: Options, t1: Time, t2: Time, c1: Time, t3: Time, t4: Time, c2: Time,
                         ms: nat, sm: nat, ahead: int)
    requires ValidState(st) && ValidOptions(o) && !DelayRejected(o, Difference(t4, t3))
    requires Nanos(t2) == Nanos(t1) + ms + Nanos(c1) + ahead
    requires Nanos(t4) == Nanos(t3) + sm + Nanos(c2) - ahead
    requires ms + sm < BILLION
    ensures ValidState(OffsetUpdated(st, o, t1, t2, c1))
    ensures var r := DelayUpdated(OffsetUpdated(st, o, t1, t2, c1), o, t3, t4, c2);
      && r.meanPathDelay.seconds == 0 && PublishedFor(st.owd, o.s, (ms + sm) / 2, r.meanPathDelay.nanoseconds)
      && forall t5: Time, t6: Time, c3: Time | Nanos(t6) == Nanos(t5) + ms + Nanos(c3) + ahead ::
           r.current && o.mechanism == E2E ==>
             RawOffset(r, o, DelayMS(t5, t6, c3)) == FromNanos(ahead + ms - r.meanPathDelay.nanoseconds)
  {
    hide Difference, FromNanos, Nanos, DelayRejected, DelayUpdated, DelayMS, RawOffset, PublishedFor;
    hide OffsetUpdated, Published, Pow2;
    ExchangePublishes(st, o, t1, t2, c1, t3, t4, c2, ms, sm, ahead);
    var s1 := OffsetUpdated(st, o, t1, t2, c1);
    SampleIsPublishedFor(st.owd, o.s, (ms + sm) / 2);
    var r := DelayUpdated(s1, o, t3, t4, c2);
    NanosOfShort(r.meanPathDelay);
    forall t5: Time, t6: Time, c3: Time | Nanos(t6) == Nanos(t5) + ms + Nanos(c3) + ahead
      ensures r.current && o.mechanism == E2E ==>
        RawOffset(r, o, DelayMS(t5, t6, c3)) == FromNanos(ahead + ms - r.meanPathDelay.nanoseconds)
    {
      if o.mechanism == E2E {
        OffsetRecovery(r, o, t5, t6, c3, ms, ahead, r.meanPathDelay.nanoseconds);
      }
    }
  }

  lemma HalfOfNat(n: nat)
    ensures Quot(n, 2) == n / 2
  {}

  lemma NanosOfShort(t: Time)
    requires t.seconds == 0
    ensures Nanos(t) == t.nanoseconds
  {}

  lemma SyncRecords(st: State, o: Options, send: Time, recv: Time, correction: Time)
    requires ValidState(st)
    ensures var r := OffsetUpdated(st, o, send, recv, correction);
      r.offsetFirstUpdated && r.delayMS == DelayMS(send, recv, correction) && ValidState(r)
  {
    hide DelayMS, RawOffset, TooLarge, FilteredOffset, Syntonizes;
  }

  /** So the offset is recovered to the nanosecond if and only if the path is symmetric up to the odd nanosecond. */
  lemma RecoveryIsExactIff(ms: nat, sm: nat, ahead: int)
    ensures ahead + ms - (ms + sm) / 2 == ahead <==> 0 <= sm - ms <= 1
  {}

  /** The offset taken from a Sync: before syntonisation path delay and all, afterwards less the mechanism's mean delay. */
  lemma OffsetRecovery(st: State, o: Options, send: Time, recv: Time, correction: Time, ms: int, ahead: int, mean: int)
    requires Nanos(recv) == Nanos(send) + ms + Nanos(correction) + ahead
    requires o.mechanism == E2E ==> Nanos(st.meanPathDelay) == mean
    requires o.mechanism == P2P ==> Nanos(st.peerMeanPathDelay) == mean
    ensures RawOffset(st, o, DelayMS(send, recv, correction)) ==
      if !st.current then FromNanos(ms + ahead)
      else if o.mechanism == Disabled then st.offset
      else FromNanos(ahead + ms - mean)
  {
    hide Difference, FromNanos, Nanos, DelayMS;
    SyncRecovery(send, recv, correction, ms, ahead);
    ValueOfFromNanos(ms + ahead);
    DifferenceIsExact(FromNanos(ms + ahead), Time(0, 0));
    DifferenceIsExact(FromNanos(ms + ahead), st.meanPathDelay);
    DifferenceIsExact(FromNanos(ms + ahead), st.peerMeanPathDelay);
    assert Nanos(Time(0, 0)) == 0 by { ZeroTime(); }
  }

  lemma ZeroTime()
    ensures Nanos(Time(0, 0)) == 0
  {}

  /** A two-step peer exchange: half of the two delays is the filter's sample, and the offset is steered with the output. */
  lemma PeerToPeerRecovery(st: State, o: Options, p: PeerTimes, c1: Time, out: nat, back: nat, peer: int,
                           send: Time, recv: Time, c2: Time, ms: int, ahead: int)
    requires ValidState(st) && ValidOptions(o) && st.current && o.mechanism == P2P
    requires Nanos(p.reqRecv) == Nanos(p.reqSend) + out + peer && out + back < BILLION
    requires Nanos(p.respRecv) == Nanos(p.respSend) + back + Nanos(c1) - peer
    requires Nanos(recv) == Nanos(send) + ms + Nanos(c2) + ahead
    ensures var r := PeerDelayUpdated(st, o, p, c1, true);
      && r.peerMeanPathDelay.seconds == 0
      && PublishedFor(st.owd, o.s, (out + back) / 2, r.peerMeanPathDelay.nanoseconds)
      && RawOffset(r, o, DelayMS(send, recv, c2)) == FromNanos(ahead + ms - r.peerMeanPathDelay.nanoseconds)
  {
    hide Difference, Nanos, DelayMS, RawPeerDelay, Filtered, RawOffset, PublishedFor, Published;
    PeerRecovery(p, c1, out, back, peer);
    var mean := (out + back) / 2;
    assert Quot(out + back, 2) == mean && FromNanos(mean) == Time(0, mean);
    var r := PeerDelayUpdated(st, o, p, c1, true);
    SampleIsPublishedFor(st.owd, o.s, mean);
    NanosOfShort(r.peerMeanPathDelay);
    OffsetRecovery(r, o, send, recv, c2, ms, ahead, r.peerMeanPathDelay.nanoseconds);
  }

  /** The offset filter averages the last two offsets, up to rounding, except in the one update that jumps. */
  lemma OffsetFilterIsMean(st: State, raw: Time)
    ensures if st.current && !st.z1 then FilteredOffset(st, raw) == raw.nanoseconds
            else Abs(2 * FilteredOffset(st, raw) - (raw.nanoseconds + st.ofmPrev)) <= 2
  {
    hide Quot;
    QuotRemainder(raw.nanoseconds, 2);
    QuotRemainder(st.ofmPrev, 2);
  }

  // ---- What a delay update takes in

  /**
   * A Delay_Resp is taken in unless no offset is known yet or what it shows is beyond a limit that is not zero. A mean
   * of a second or more clears the filter, a negative one leaves it alone, any other enters it.
   */
  lemma DelayTaken(st: State, o: Options, send: Time, recv: Time, correction: Time, ms: int, sm: int, ahead: int)
    requires ValidState(st) && ValidOptions(o) && Nanos(st.delayMS) == ms + ahead
    requires Nanos(recv) == Nanos(send) + sm + Nanos(correction) - ahead
    ensures var r := DelayUpdated(st, o, send, recv, correction);
      var shown, mean := Nanos(recv) - Nanos(send), Quot(ms + sm, 2);
      if !st.offsetFirstUpdated || (o.maxDelay != 0 && Beyond(shown, o.maxDelay)) then r == st
      else
        && r == st.(delaySM := FromNanos(shown), owd := r.owd, meanPathDelay := r.meanPathDelay)
        && if Abs(mean) >= BILLION then r.meanPathDelay == st.meanPathDelay && r.owd == DelayFilter(st.owd.y, 0, 0)
           else if mean < 0 then r.meanPathDelay == st.meanPathDelay && r.owd == st.owd
           else
             && r.owd.nsecPrev == mean && r.meanPathDelay.seconds == 0
             && PublishedFor(st.owd, o.s, mean, r.meanPathDelay.nanoseconds)
  {
    hide Difference, FromNanos, Nanos, RawMeanDelay, Filtered, PublishedFor, Published, Pow2, Quot;
    var shown, mean := Nanos(recv) - Nanos(send), Quot(ms + sm, 2);
    DifferenceIsExact(recv, send);
    BeyondIff(shown, o.maxDelay);
    RejectedIff(o, FromNanos(shown));
    DelayReqRecovery(st.delayMS, send, recv, correction, ms, sm, ahead);
    PartsOf(mean);
    if 0 <= mean < BILLION {
      FilteredKeepsSample(st.owd, mean, o.s);
      SampleIsPublishedFor(st.owd, o.s, mean);
    }
  }

  /** One-step: what the requester's clock sees, less the turnaround that the correction carries, is both delays. */
  lemma OneStepPeerRecovery(p: PeerTimes, correction: Time, out: int, back: int)
    requires Nanos(p.respRecv) == Nanos(p.reqSend) + out + back + Nanos(correction)
    ensures RawPeerDelay(p, correction, false) == FromNanos(Quot(out + back, 2))
  {
    hide Difference, Half, FromNanos, Nanos, Quot;
    DifferenceIsExact(p.respRecv, p.reqSend);
    ValueOfFromNanos(Nanos(p.respRecv) - Nanos(p.reqSend));
    DifferenceIsExact(Difference(p.respRecv, p.reqSend), correction);
    ValueOfFromNanos(out + back);
    HalfTruncates(FromNanos(out + back));
  }

  lemma RejectedIff(o: Options, sm: Time)
    ensures DelayRejected(o, sm) <==> o.maxDelay != 0 && (sm.seconds != 0 || Abs(sm.nanoseconds) > o.maxDelay)
  {}

  lemma PartsOf(v: int)
    ensures FromNanos(v).seconds != 0 <==> Abs(v) >= BILLION
    ensures Abs(v) < BILLION ==> FromNanos(v) == Time(0, v)
  {}

  /** A peer answer is always taken in: a mean of a second or more is published as it is and clears the filter. */
  lemma PeerDelayTaken(st: State, o: Options, p: PeerTimes, correction: Time, out: int, back: int, ahead: int)
    requires ValidState(st) && ValidOptions(o)
    requires Nanos(p.reqRecv) == Nanos(p.reqSend) + out + ahead
    requires Nanos(p.respRecv) == Nanos(p.respSend) + back + Nanos(correction) - ahead
    ensures var r, mean := PeerDelayUpdated(st, o, p, correction, true), Quot(out + back, 2);
      && r == st.(owd := r.owd, peerMeanPathDelay := r.peerMeanPathDelay)
      && if Abs(mean) >= BILLION then
           Nanos(r.peerMeanPathDelay) == mean && r.owd == DelayFilter(st.owd.y, 0, 0)
         else
           && r.owd.nsecPrev == mean && r.peerMeanPathDelay.seconds == 0
           && PublishedFor(st.owd, o.s, mean, r.peerMeanPathDelay.nanoseconds)
  {
    hide FromNanos, Nanos, RawPeerDelay, Filtered, PublishedFor, Published, Pow2, Quot;
    var mean := Quot(out + back, 2);
    PeerRecovery(p, correction, out, back, ahead);
    ValueOfFromNanos(mean);
    PartsOf(mean);
    if Abs(mean) < BILLION {
      FilteredKeepsSample(st.owd, mean, o.s);
      SampleIsPublishedFor(st.owd, o.s, mean);
    }
  }

  /** Initialisation forgets everything but the filter's output and last sample, which a fresh servo has as zero. */
  lemma InitForgetsIff(a: State, b: State, o: Options, preset: Time)
    ensures Initialized(a, o, preset) == Initialized(b, o, preset) <==>
      a.owd.y == b.owd.y && a.owd.nsecPrev == b.owd.nsecPrev && a.commands == b.commands
    ensures Initialized(PoweredUp(), o, preset) ==
      PoweredUp().(tick := TickRate(o, o.initialTick), commands := [ClearRtc, MoveRtc(preset)])
  {
    var x, y := a.commands + [ClearRtc, MoveRtc(preset)], b.commands + [ClearRtc, MoveRtc(preset)];
    assert x == y ==> x[..|x| - 2] == y[..|y| - 2];
    assert x[..|x| - 2] == a.commands && y[..|y| - 2] == b.commands;
  }

  /** The gain of the filter: after a reset the n-th sample weighs one n-th, down to one in 2^s. */
  function FilterAll(f: DelayFilter, samples: seq<int>, s: nat): DelayFilter
    requires s <= 30 && Abs(f.y) < Pow2(31)
    decreases |samples|
  {
    if samples == [] then f
    else
      var g := FilterAll(f, samples[..|samples| - 1], s);
      if Abs(g.y) < Pow2(31) then Filtered(g, samples[|samples| - 1], s) else g
  }

  lemma {:induction false} GainGrows(f: DelayFilter, samples: seq<int>, s: nat, bound: nat)
    requires s <= 30 && SurvivesShift(bound, s) && Abs(f.y) <= bound && Abs(f.nsecPrev) <= bound && f.sExp == 0
    requires forall x :: x in samples ==> Abs(x) <= bound
    ensures Abs(f.y) < Pow2(31)
    ensures var g := FilterAll(f, samples, s);
      && Abs(g.y) <= bound && Abs(g.nsecPrev) <= bound
      && g.sExp == if |samples| <= Pow2(s) then |samples| else Pow2(s)
    decreases |samples|
  {
    ShiftNarrows(bound, s);
    if samples != [] {
      hide Filtered, Pow2, SurvivesShift;
      var before, x := samples[..|samples| - 1], samples[|samples| - 1];
      assert x in samples && forall y :: y in before ==> y in samples;
      GainGrows(f, before, s, bound);
      var g := FilterAll(f, before, s);
      FilterStaysInRange(g, x, s, bound);
      FilteredKeepsSample(g, x, s);
      GainStep(g, x, s, bound);
    }
  }

  lemma ShiftNarrows(bound: nat, s: nat)
    requires s <= 30 && SurvivesShift(bound, s)
    ensures bound < Pow2(31)
  {
    Pow2Sum(31 - s, s);
    hide Pow2;
    assert Pow2(31 - s) * Pow2(s) >= Pow2(31 - s) by { Larger(Pow2(31 - s), Pow2(s)); }
  }

  lemma Larger(a: nat, b: nat)
    requires b > 0
    ensures a * b >= a
  {}

  lemma GainStep(g: DelayFilter, x: int, s: nat, bound: nat)
    requires s <= 30 && SurvivesShift(bound, s) && Abs(g.y) <= bound && Abs(g.y) < Pow2(31) && 0 <= g.sExp <= Pow2(s)
    ensures Filtered(g, x, s).sExp == if g.sExp < Pow2(s) then g.sExp + 1 else Pow2(s)
  {
    hide Pow2, Blend;
    assert SurvivesShift(g.y, s);
    assert Stiffness(g.y, s) == s;
  }

  // ---- What an offset update stores, and what the clock update makes of it

  /** The offset that a Sync shows: path delay and true offset, less the mean delay once syntonised. */
  function ShownOffset(st: State, o: Options, ms: int, ahead: int): int {
    if !st.current then ahead + ms
    else match o.mechanism {
      case E2E => ahead + ms - Nanos(st.meanPathDelay)
      case P2P => ahead + ms - Nanos(st.peerMeanPathDelay)
      case Disabled => Nanos(st.offset)
    }
  }

  /** Beyond a limit in nanoseconds, or beyond a second. */
  predicate Beyond(v: int, limit: int) { Abs(v) >= BILLION || Abs(v) > limit }

  lemma BeyondIff(v: int, limit: int)
    ensures var t := FromNanos(v); t.seconds != 0 || Abs(t.nanoseconds) > limit <==> Beyond(v, limit)
  {}

  lemma ShownIsRaw(st: State, o: Options, send: Time, recv: Time, correction: Time, ms: int, ahead: int)
    requires Nanos(recv) == Nanos(send) + ms + Nanos(correction) + ahead
    requires st.current && o.mechanism == Disabled ==> Canonical(st.offset)
    ensures RawOffset(st, o, DelayMS(send, recv, correction)) == FromNanos(ShownOffset(st, o, ms, ahead))
  {
    hide Difference, FromNanos, Nanos, DelayMS, Canonical;
    var mean := if o.mechanism == E2E then Nanos(st.meanPathDelay) else Nanos(st.peerMeanPathDelay);
    OffsetRecovery(st, o, send, recv, correction, ms, ahead, mean);
    CanonicalIsUnique(st.offset);
  }

  /**
   * An offset beyond the limit is stored as it is, and the filter is cleared; one within the limit is filtered, and
   * what is stored is the newest entry of the delay line: the rounded mean of the last two, or in the one update that
   * jumps after syntonising the offset itself.
   */
  lemma StoredOffset(st: State, o: Options, send: Time, recv: Time, correction: Time, ms: int, ahead: int)
    requires ValidState(st) && Nanos(recv) == Nanos(send) + ms + Nanos(correction) + ahead
    requires st.current && o.mechanism == Disabled ==> Canonical(st.offset)
    ensures var r, shown := OffsetUpdated(st, o, send, recv, correction), ShownOffset(st, o, ms, ahead);
      && r.offsetFirstUpdated && r.delayMS == FromNanos(ms + ahead) && |r.zline| == |st.zline|
      && (Beyond(shown, o.maxDelay) ==> Nanos(r.offset) == shown && r.ofmPrev == 0 && r.zline == st.zline)
      && (!Beyond(shown, o.maxDelay) ==>
            && r.offset == Time(0, r.zline[0]) && r.zline[1..] == st.zline[..OFM_DELAY_LEN - 1]
            && (st.current && !st.z1 ==> r.zline[0] == shown && r.ofmPrev == st.ofmPrev && r.ofmY == st.ofmY)
            && (!st.current || st.z1 ==>
                  Abs(2 * r.zline[0] - (shown + st.ofmPrev)) <= 2 && r.ofmPrev == shown && r.ofmY == r.zline[0]))
  {
    hide Difference, FromNanos, Nanos, DelayMS, RawOffset, FilteredOffset, Syntonizes, ShownOffset, Canonical;
    var shown := ShownOffset(st, o, ms, ahead);
    ShownIsRaw(st, o, send, recv, correction, ms, ahead);
    SyncRecovery(send, recv, correction, ms, ahead);
    ValueOfFromNanos(shown);
    BeyondIff(shown, o.maxDelay);
    OffsetFilterIsMean(st.(delayMS := FromNanos(ms + ahead), offset := FromNanos(shown)), FromNanos(shown));
    if !Beyond(shown, o.maxDelay) {
      NanosOfShort(FromNanos(shown));
    }
  }

  /**
   * The two updates that a Sync drives, when its offset is beyond the limit: within maxReset the counter is told to move
   * by exactly that offset, in the other direction; beyond it nothing happens.
   */
  lemma SyncStepsClock(st: State, o: Options, send: Time, recv: Time, correction: Time, ms: int, ahead: int)
    requires ValidState(st) && Nanos(recv) == Nanos(send) + ms + Nanos(correction) + ahead
    requires st.current && o.mechanism == Disabled ==> Canonical(st.offset)
    requires Beyond(ShownOffset(st, o, ms, ahead), o.maxDelay) && !o.noAdjust && !o.noResetClock
    ensures var r, shown := ClockUpdated(OffsetUpdated(st, o, send, recv, correction), o), ShownOffset(st, o, ms, ahead);
      if o.maxReset != 0 && Beyond(shown, o.maxReset) then r.commands == st.commands
      else
        && |r.commands| == |st.commands| + 1 && r.commands[..|st.commands|] == st.commands
        && r.commands[|st.commands|].MoveRtc? && Canonical(r.commands[|st.commands|].offset)
        && Nanos(r.commands[|st.commands|].offset) == -shown
  {
    hide Difference, FromNanos, DelayMS, RawOffset, Accepted, ShownOffset;
    var shown := ShownOffset(st, o, ms, ahead);
    ShownIsRaw(st, o, send, recv, correction, ms, ahead);
    ValueOfFromNanos(shown);
    BeyondIff(shown, o.maxDelay);
    BeyondIff(shown, o.maxReset);
    SyncKeepsDelays(st, o, send, recv, correction);
    NegatedTime(FromNanos(shown));
  }

  lemma NegatedTime(t: Time)
    requires Canonical(t)
    ensures Canonical(Time(-t.seconds, -t.nanoseconds)) && Nanos(Time(-t.seconds, -t.nanoseconds)) == -Nanos(t)
  {}

  /** Peer delay: with turnaround times on the responder's clock the offset between the two clocks cancels. */
  lemma PeerRecovery(p: PeerTimes, correction: Time, out: int, back: int, ahead: int)
    requires Nanos(p.reqRecv) == Nanos(p.reqSend) + out + ahead
    requires Nanos(p.respRecv) == Nanos(p.respSend) + back + Nanos(correction) - ahead
    ensures RawPeerDelay(p, correction, true) == FromNanos(Quot(out + back, 2))
  {
    hide Difference, Sum, Half, FromNanos, Nanos, Quot;
    var ms, sm := Difference(p.respRecv, p.respSend), Difference(p.reqRecv, p.reqSend);
    DifferenceIsExact(p.respRecv, p.respSend);
    ValueOfFromNanos(Nanos(p.respRecv) - Nanos(p.respSend));
    DifferenceIsExact(p.reqRecv, p.reqSend);
    ValueOfFromNanos(Nanos(p.reqRecv) - Nanos(p.reqSend));
    SumIsExact(ms, sm);
    ValueOfFromNanos(Nanos(ms) + Nanos(sm));
    DifferenceIsExact(Sum(ms, sm), correction);
    ValueOfFromNanos(out + back);
    HalfTruncates(Difference(Sum(ms, sm), correction));
  }

  /** A one-step answer that carries the turnaround in its correction gives the two-step result. */
  lemma OneStepIsTwoStep(p: PeerTimes, oneStep: Time, twoStep: Time)
    requires Nanos(oneStep) == Nanos(twoStep) + Nanos(p.respSend) - Nanos(p.reqRecv)
    ensures RawPeerDelay(p, oneStep, false) == RawPeerDelay(p, twoStep, true)
  {
    hide Difference, Sum, Half, FromNanos, Nanos, Quot;
    var ms, sm := Difference(p.respRecv, p.respSend), Difference(p.reqRecv, p.reqSend);
    DifferenceIsExact(p.respRecv, p.respSend);
    ValueOfFromNanos(Nanos(p.respRecv) - Nanos(p.respSend));
    DifferenceIsExact(p.reqRecv, p.reqSend);
    ValueOfFromNanos(Nanos(p.reqRecv) - Nanos(p.reqSend));
    SumIsExact(ms, sm);
    ValueOfFromNanos(Nanos(ms) + Nanos(sm));
    DifferenceIsExact(Sum(ms, sm), twoStep);
    DifferenceIsExact(p.respRecv, p.reqSend);
    ValueOfFromNanos(Nanos(p.respRecv) - Nanos(p.reqSend));
    DifferenceIsExact(Difference(p.respRecv, p.reqSend), oneStep);
  }

  // ---- The servo object

  class ClockServo {
    var owdFilt: DelayFilter
    var meanPathDelay: Time
    var peerMeanPathDelay: Time
    var delaySM: Time
    var delayMS: Time
    var offsetFromMaster: Time
    var ofmY: int
    var ofmNsecPrev: int
    var offsetFirstUpdated: bool
    var observedDrift: int
    var tickInc: int
    var rtcCommands: seq<RtcCommand>
    const ofmZline: array<int>
    var updateOffsetCount: nat
    var frequencySyntonized: bool
    var frequencySyntonizedZ1: bool
    var frequencySyntonizedZ2: bool

    function Snapshot(): State
      reads this, ofmZline
    {
      State(owdFilt, meanPathDelay, peerMeanPathDelay, delaySM, delayMS,
            offsetFromMaster, ofmY, ofmNsecPrev, offsetFirstUpdated, observedDrift, tickInc, rtcCommands,
            ofmZline[..], updateOffsetCount, frequencySyntonized, frequencySyntonizedZ1, frequencySyntonizedZ2)
    }

    constructor ()
      ensures Snapshot() == PoweredUp() && fresh(ofmZline)
    {
      hide Zeros;
      var zero := Time(0, 0);
      owdFilt := DelayFilter(0, 0, 0);
      meanPathDelay, peerMeanPathDelay, delaySM, delayMS, offsetFromMaster := zero, zero, zero, zero, zero;
      ofmY, ofmNsecPrev, offsetFirstUpdated, observedDrift, tickInc := 0, 0, false, 0, 0;
      rtcCommands := [];
      ofmZline := new int[OFM_DELAY_LEN](i => 0);
      updateOffsetCount := 0;
      frequencySyntonized, frequencySyntonizedZ1, frequencySyntonizedZ2 := false, false, false;
      new;
      assert ofmZline[..] == Zeros(OFM_DELAY_LEN);
    }

    method AdjTickRate(tick: int, o: Options)
      modifies this`tickInc
      ensures tickInc == TickRate(o, tick)
    {
      var maxTick, minTick := o.initialTick + ADJ_FREQ_MAX, o.initialTick - ADJ_FREQ_MAX;
      if tick > maxTick {
        tickInc := maxTick;
      } else if tick < minTick {
        tickInc := minTick;
      } else {
        tickInc := tick;
      }
    }

    method ClearLine()
      requires ofmZline.Length == OFM_DELAY_LEN
      modifies ofmZline
      ensures ofmZline[..] == Zeros(OFM_DELAY_LEN)
    {
      hide Zeros;
      forall i | 0 <= i < OFM_DELAY_LEN {
        ofmZline[i] := 0;
      }
    }

    method ClearFilters()
      modifies this`owdFilt, this`observedDrift, this`offsetFromMaster, this`meanPathDelay, this`peerMeanPathDelay,
               this`delaySM, this`delayMS, this`ofmY, this`ofmNsecPrev, this`offsetFirstUpdated
      ensures owdFilt == old(owdFilt).(sExp := 0) && observedDrift == 0
      ensures offsetFromMaster == meanPathDelay == peerMeanPathDelay == delaySM == delayMS == Time(0, 0)
      ensures ofmY == ofmNsecPrev == 0 && !offsetFirstUpdated
    {
      var zero := Time(0, 0);
      owdFilt, observedDrift := owdFilt.(sExp := 0), 0;
      offsetFromMaster, meanPathDelay, peerMeanPathDelay, delaySM, delayMS := zero, zero, zero, zero, zero;
      ofmY, ofmNsecPrev, offsetFirstUpdated := 0, 0, false;
    }

    /** Stops, clears, presets and restarts the counter. */
    method PresetClock(osTime: Time, utcValid: bool, utcOffset: int, o: Options)
      modifies this`tickInc, this`rtcCommands
      ensures tickInc == TickRate(o, o.initialTick)
      ensures rtcCommands == old(rtcCommands) + [ClearRtc, MoveRtc(PresetTime(osTime, utcValid, utcOffset))]
    {
      AdjTickRate(0, o);
      rtcCommands := rtcCommands + [ClearRtc];
      var time := osTime;
      if utcValid {
        time := time.(seconds := time.seconds + utcOffset);
      }
      rtcCommands := rtcCommands + [MoveRtc(time)];
      AdjTickRate(o.initialTick, o);
    }

    method InitClock(osTime: Time, utcValid: bool, utcOffset: int, o: Options)
      requires ofmZline.Length == OFM_DELAY_LEN
      modifies this, ofmZline
      ensures Snapshot() == Initialized(old(Snapshot()), o, PresetTime(osTime, utcValid, utcOffset))
    {
      hide Zeros, TickRate, PresetTime;
      PresetClock(osTime, utcValid, utcOffset, o);
      ClearFilters();
      updateOffsetCount := 0;
      frequencySyntonized, frequencySyntonizedZ1, frequencySyntonizedZ2 := false, false, false;
      ClearLine();
    }

    /** The part that both delay updates share: limit the gain, then filter. The result is the delay to publish. */
    method FilterDelay(nanos: int, o: Options) returns (published: int)
      requires ValidOptions(o) && Abs(owdFilt.y) < Pow2(31)
      modifies this`owdFilt
      ensures owdFilt == Filtered(old(owdFilt), nanos, o.s)
      ensures published == Published(old(owdFilt), nanos, o.s)
    {
      hide Quot, Pow2;
      var y, s := owdFilt.y, o.s;
      while Shr(Abs(y), 31 - s) != 0
        invariant owdFilt == old(owdFilt)
        invariant 0 <= s <= o.s && Stiffness(y, s) == Stiffness(y, o.s)
        decreases s
      {
        ShrIsZeroIff(Abs(y), 31 - s);
        assert s > 0;
        s := s - 1;
      }
      ShrIsZeroIff(Abs(y), 31 - s);
      assert s == Stiffness(y, o.s);
      if owdFilt.sExp < 1 {
        owdFilt := owdFilt.(sExp := 1);
      } else if owdFilt.sExp < Pow2(s) {
        owdFilt := owdFilt.(sExp := owdFilt.sExp + 1);
      } else if owdFilt.sExp > Pow2(s) {
        owdFilt := owdFilt.(sExp := Pow2(s));
      }
      var e := owdFilt.sExp;
      assert e == NextExp(old(owdFilt).sExp, s);
      owdFilt := owdFilt.(y := Quot((e - 1) * y, e) + Quot(Quot(nanos, 2) + Quot(owdFilt.nsecPrev, 2), e));
      if owdFilt.nsecPrev != 0 {
        owdFilt := owdFilt.(nsecPrev := nanos);
        published := owdFilt.y;
      } else {
        owdFilt := owdFilt.(nsecPrev := nanos);
        published := nanos;
      }
    }

    method UpdateDelay(send: Time, recv: Time, correction: Time, o: Options)
      requires ValidOptions(o) && ValidState(Snapshot())
      modifies this
      ensures Snapshot() == DelayUpdated(old(Snapshot()), o, send, recv, correction)
    {
      hide Difference, Sum, Half, Filtered, Published;
      var previous := meanPathDelay;
      var slaveToMaster := Difference(recv, send);
      if o.maxDelay != 0 && offsetFirstUpdated {
        if slaveToMaster.nanoseconds < 0 && Abs(slaveToMaster.nanoseconds) > o.maxDelay {
          return;
        }
        if slaveToMaster.seconds != 0 {
          return;
        }
        if slaveToMaster.nanoseconds > o.maxDelay {
          return;
        }
      }
      if offsetFirstUpdated {
        delaySM := Difference(recv, send);
        meanPathDelay := Sum(delaySM, delayMS);
        meanPathDelay := Difference(meanPathDelay, correction);
        meanPathDelay := Half(meanPathDelay);
        if meanPathDelay.seconds != 0 {
          owdFilt := owdFilt.(sExp := 0, nsecPrev := 0);
          meanPathDelay := previous;
          return;
        }
        if meanPathDelay.nanoseconds < 0 {
          meanPathDelay := previous;
          return;
        }
        var published := FilterDelay(meanPathDelay.nanoseconds, o);
        meanPathDelay := Time(meanPathDelay.seconds, published);
      }
    }

    method UpdatePeerDelay(p: PeerTimes, correction: Time, twoStep: bool, o: Options)
      requires ValidOptions(o) && ValidState(Snapshot())
      modifies this
      ensures Snapshot() == PeerDelayUpdated(old(Snapshot()), o, p, correction, twoStep)
    {
      hide Difference, Sum, Half, Filtered, Published;
      if twoStep {
        var pdelayMS := Difference(p.respRecv, p.respSend);
        var pdelaySM := Difference(p.reqRecv, p.reqSend);
        peerMeanPathDelay := Sum(pdelayMS, pdelaySM);
      } else {
        peerMeanPathDelay := Difference(p.respRecv, p.reqSend);
      }
      peerMeanPathDelay := Difference(peerMeanPathDelay, correction);
      peerMeanPathDelay := Half(peerMeanPathDelay);
      if peerMeanPathDelay.seconds != 0 {
        owdFilt := owdFilt.(sExp := 0, nsecPrev := 0);
        return;
      }
      var published := FilterDelay(peerMeanPathDelay.nanoseconds, o);
      peerMeanPathDelay := Time(peerMeanPathDelay.seconds, published);
    }

    method SyntonizeFrequency() returns (syntonized: bool)
      requires ofmZline.Length == OFM_DELAY_LEN
      ensures syntonized == (frequencySyntonized
                             || (updateOffsetCount >= OFM_DELAY_LEN + 1 && Syntonizes(ofmZline[..])))
    {
      if frequencySyntonized {
        return true;
      }
      if updateOffsetCount < OFM_DELAY_LEN + 1 {
        return false;
      }
      var maxOfm, maxPos := 0, 0;
      for i := 0 to OFM_DELAY_LEN
        invariant (maxOfm, maxPos) == Extreme(ofmZline[..], i)
      {
        var absOfm := Abs(ofmZline[i]);
        if absOfm > maxOfm {
          maxOfm, maxPos := absOfm, i;
        } else if absOfm == maxOfm && i < OFM_DELAY_LEN / 2 {
          maxPos := i;
        }
      }
      syntonized := maxOfm < TIME_DEV && maxPos > 1 && maxPos < OFM_DELAY_LEN - 2;
    }

    method ShiftIn(x: int)
      requires ofmZline.Length == OFM_DELAY_LEN
      modifies ofmZline
      ensures ofmZline[..] == Shifted(old(ofmZline[..]), x)
    {
      var i := OFM_DELAY_LEN - 1;
      while i > 0
        invariant 0 <= i < OFM_DELAY_LEN
        invariant forall k :: 0 <= k <= i ==> ofmZline[k] == old(ofmZline[k])
        invariant forall k :: i < k < OFM_DELAY_LEN ==> ofmZline[k] == old(ofmZline[k - 1])
      {
        ofmZline[i] := ofmZline[i - 1];
        i := i - 1;
      }
      ofmZline[0] := x;
    }

    method FilterOffset()
      modifies this`ofmY, this`ofmNsecPrev, this`offsetFromMaster
      ensures offsetFromMaster
           == Time(old(offsetFromMaster).seconds, FilteredOffset(old(Snapshot()), old(offsetFromMaster)))
      ensures frequencySyntonizedZ1 || !frequencySyntonized ==>
        ofmY == offsetFromMaster.nanoseconds && ofmNsecPrev == old(offsetFromMaster).nanoseconds
      ensures !frequencySyntonizedZ1 && frequencySyntonized ==> ofmY == old(ofmY) && ofmNsecPrev == old(ofmNsecPrev)
    {
      hide Quot;
      if frequencySyntonizedZ1 || !frequencySyntonized {
        ofmY := Quot(offsetFromMaster.nanoseconds, 2) + Quot(ofmNsecPrev, 2);
        ofmNsecPrev := offsetFromMaster.nanoseconds;
        offsetFromMaster := Time(offsetFromMaster.seconds, ofmY);
      }
    }

    method RecordOffset()
      requires ofmZline.Length == OFM_DELAY_LEN
      modifies this`updateOffsetCount, this`frequencySyntonized, this`frequencySyntonizedZ1,
               this`frequencySyntonizedZ2, ofmZline
      ensures ofmZline[..] == Shifted(old(ofmZline[..]), offsetFromMaster.nanoseconds)
      ensures updateOffsetCount == old(updateOffsetCount) + 1
      ensures frequencySyntonizedZ2 == old(frequencySyntonizedZ1) && frequencySyntonizedZ1 == old(frequencySyntonized)
      ensures frequencySyntonized == (old(frequencySyntonized)
                || (old(updateOffsetCount) >= OFM_DELAY_LEN + 1 && Syntonizes(ofmZline[..])))
    {
      hide Syntonizes, Shifted;
      ShiftIn(offsetFromMaster.nanoseconds);
      frequencySyntonizedZ2 := frequencySyntonizedZ1;
      frequencySyntonizedZ1 := frequencySyntonized;
      var syntonized := SyntonizeFrequency();
      frequencySyntonized := syntonized;
      updateOffsetCount := updateOffsetCount + 1;
    }

    /** The second half of the offset update, once the offset is small enough to be filtered. */
    method AcceptOffset()
      requires ValidState(Snapshot())
      modifies this`ofmY, this`ofmNsecPrev, this`offsetFromMaster, this`offsetFirstUpdated, this`updateOffsetCount,
               this`frequencySyntonized, this`frequencySyntonizedZ1, this`frequencySyntonizedZ2, ofmZline
      ensures Snapshot() == Accepted(old(Snapshot()))
    {
      hide FilteredOffset, Syntonizes, Shifted;
      FilterOffset();
      offsetFirstUpdated := true;
      RecordOffset();
    }

    /** The raw offset of a Sync. */
    method MeasureOffset(send: Time, recv: Time, correction: Time, o: Options)
      modifies this`delayMS, this`offsetFromMaster
      ensures delayMS == DelayMS(send, recv, correction)
      ensures offsetFromMaster == RawOffset(old(Snapshot()), o, delayMS)
    {
      hide Difference;
      delayMS := Difference(recv, send);
      delayMS := Difference(delayMS, correction);
      if frequencySyntonized {
        match o.mechanism {
          case P2P => offsetFromMaster := Difference(delayMS, peerMeanPathDelay);
          case E2E => offsetFromMaster := Difference(delayMS, meanPathDelay);
          case Disabled =>
        }
      } else {
        offsetFromMaster := Difference(delayMS, Time(0, 0));
      }
    }

    method UpdateOffset(send: Time, recv: Time, correction: Time, o: Options)
      requires ValidOptions(o) && ValidState(Snapshot())
      modifies this, ofmZline
      ensures Snapshot() == OffsetUpdated(old(Snapshot()), o, send, recv, correction)
    {
      hide DelayMS, RawOffset, Accepted;
      MeasureOffset(send, recv, correction, o);
      if offsetFromMaster.seconds != 0 || Abs(offsetFromMaster.nanoseconds) > o.maxDelay {
        ofmNsecPrev := 0;
        offsetFirstUpdated := true;
        return;
      }
      AcceptOffset();
    }

    method PerformClockStep(o: Options)
      modifies this`rtcCommands
      ensures rtcCommands == old(rtcCommands)
        + if o.noAdjust then [] else [MoveRtc(Time(-offsetFromMaster.seconds, -offsetFromMaster.nanoseconds))]
    {
      if o.noAdjust {
        return;
      }
      rtcCommands := rtcCommands + [MoveRtc(Time(-offsetFromMaster.seconds, -offsetFromMaster.nanoseconds))];
    }

    /** The PI controller. */
    method Steer(o: Options)
      modifies this`observedDrift, this`tickInc
      ensures observedDrift == Drift(old(Snapshot()), o)
      ensures tickInc == Adjusted(old(Snapshot()), o, Quot(offsetFromMaster.nanoseconds, Attenuation(o.ap)) + observedDrift).tick
    {
      hide Quot, TickRate;
      var ap, ai := o.ap, o.ai;
      if ap < PI_UNIT {
        ap := PI_UNIT;
      }
      if ai < PI_UNIT {
        ai := PI_UNIT;
      }
      observedDrift := observedDrift + Quot(offsetFromMaster.nanoseconds, ai);
      if observedDrift > ADJ_FREQ_MAX {
        observedDrift := ADJ_FREQ_MAX;
      } else if observedDrift < -ADJ_FREQ_MAX {
        observedDrift := -ADJ_FREQ_MAX;
      }
      var adj := Quot(offsetFromMaster.nanoseconds, ap) + observedDrift;
      if !o.noAdjust {
        AdjTickRate(o.initialTick - adj, o);
      }
    }

    method Jump(o: Options)
      modifies this`observedDrift, this`tickInc, this`rtcCommands
      ensures Snapshot() == Jumped(old(Snapshot()), o)
    {
      hide TickRate;
      if !o.noAdjust {
        if !o.noResetClock {
          PerformClockStep(o);
        } else {
          var adj := if offsetFromMaster.nanoseconds > 0 then ADJ_FREQ_MAX else -ADJ_FREQ_MAX;
          observedDrift := adj;
          AdjTickRate(o.initialTick - adj, o);
        }
      }
    }

    method UpdateClock(o: Options)
      modifies this`observedDrift, this`tickInc, this`rtcCommands
      ensures Snapshot() == ClockUpdated(old(Snapshot()), o)
    {
      hide Quot, TickRate, Drift, Jumped;
      if o.maxReset != 0 {
        if offsetFromMaster.seconds != 0 || Abs(offsetFromMaster.nanoseconds) > o.maxReset {
          return;
        }
      }
      if offsetFromMaster.seconds != 0 || Abs(offsetFromMaster.nanoseconds) > o.maxDelay
         || (!frequencySyntonizedZ2 && frequencySyntonizedZ1) {
        Jump(o);
      } else {
        Steer(o);
      }
    }
  }
}
