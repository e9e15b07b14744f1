/** The real-time counter of rtl/rtc/ptp_rtc.v, register by register and cycle by cycle. */
module Rtc {
  const ONE_NS := 0x400_0000                     // one nanosecond in the 32.26 fixed-point counter
  const NS_RANGE := 0x400_0000_0000_0000         // the counter is 58 bits wide
  const NS_PER_SECOND := 1_000_000_000
  const SECOND := NS_PER_SECOND * ONE_NS
  const SC_RANGE := 0x1_0000_0000_0000           // 48-bit seconds
  const TICK_RANGE := 0x1_0000_0000
  const EPOCH := SC_RANGE * SECOND               // the period of the whole counter

  datatype Inputs = Inputs(tick: int, nsOffset: int, scOffset: int, offsetValid: bool, clear: bool)

  datatype Regs = Regs(
    ns: int, sc: int, tickD1: int, contrled: int, tmpNs: int, scSub: int,
    wrap: bool, wrapD1: bool, wrapD2: bool, retain: bool, adjust: bool)

  predicate ValidInputs(i: Inputs) {
    0 <= i.tick < TICK_RANGE && -0x8000_0000 <= i.nsOffset < 0x8000_0000 && -SC_RANGE / 2 <= i.scOffset < SC_RANGE / 2
  }

  predicate InRange(s: Regs) {
    && 0 <= s.ns < NS_RANGE && 0 <= s.sc < SC_RANGE && 0 <= s.tickD1 < TICK_RANGE && 0 <= s.contrled < NS_RANGE
    && -TICK_RANGE <= s.tmpNs < TICK_RANGE && 0 <= s.scSub < SC_RANGE
  }

  /** A sum kept in 33 bits, read as two's complement. */
  function Signed33(x: int): int {
    (x + TICK_RANGE) % (2 * TICK_RANGE) - TICK_RANGE
  }

  /** The widths of the nanosecond and second registers. */
  function Ns(x: int): int { x % NS_RANGE }

  function Sc(x: int): int { x % SC_RANGE }

  /** The nanoseconds of a fixed-point value, and back. */
  function Whole(x: int): int { x / ONE_NS }

  function FixedPoint(ns: int): int { ns % TICK_RANGE * ONE_NS }

  /** ns_wrap_around_flag_p1: the counter leaves the current second in this cycle. */
  predicate Leaving(s: Regs, i: Inputs) {
    Whole(Ns(s.ns + i.tick)) > NS_PER_SECOND - 1
  }

  /** The cycles in which no offset may be adjusted. */
  predicate Busy(s: Regs, i: Inputs) {
    Leaving(s, i) || s.wrap || s.wrapD1 || s.wrapD2
  }

  /** tmp_ns1: the adjusted nanoseconds, back above zero. */
  function AdjustedNs(s: Regs): int {
    Signed33(if s.tmpNs < 0 then s.tmpNs + NS_PER_SECOND else s.tmpNs)
  }

  const RESET := Regs(0, 0, 0, 0, 0, 0, false, false, false, false, false)

  /** All registers after one rising clock edge. */
  function Next(s: Regs, i: Inputs): Regs {
    Regs(
      if i.clear then 0
      else if s.adjust then Ns(FixedPoint(AdjustedNs(s)) + i.tick)
      else if s.wrap then Ns(s.contrled - SECOND)
      else Ns(s.ns + i.tick),
      if i.clear then 0
      else if s.adjust then Sc(s.scSub + i.scOffset)
      else Sc(s.sc + if s.wrap then 1 else 0),
      i.tick,
      Ns(s.ns + 2 * i.tick),
      Signed33(Whole(s.contrled) + i.nsOffset),
      Sc(s.sc - if s.tmpNs < 0 then 1 else 0),
      !s.wrap && !s.wrapD1 && Leaving(s, i),
      s.wrap,
      s.wrapD1,
      if Busy(s, i) && i.offsetValid then true else if s.adjust then false else s.retain,
      if Busy(s, i) || s.adjust then false else s.retain || i.offsetValid)
  }

  /** The module itself: its always blocks sample the old registers and update all of them at once. */
  class PtpRtc {
    var nsCounter: int
    var scCounter: int
    var tickIncD1: int
    var nsContrledReg: int
    var tmpNsD1: int
    var scCounterSub1: int
    var nsWrapAroundFlag: bool
    var nsWrapAroundFlagD1: bool
    var nsWrapAroundFlagD2: bool
    var adjustRetain: bool
    var offsetAdjust: bool

    function Registers(): Regs
      reads this
    {
      Regs(nsCounter, scCounter, tickIncD1, nsContrledReg, tmpNsD1, scCounterSub1,
           nsWrapAroundFlag, nsWrapAroundFlagD1, nsWrapAroundFlagD2, adjustRetain, offsetAdjust)
    }

    constructor ()
      ensures Registers() == RESET
    {
      nsCounter, scCounter, tickIncD1, nsContrledReg, tmpNsD1, scCounterSub1 := 0, 0, 0, 0, 0, 0;
      nsWrapAroundFlag, nsWrapAroundFlagD1, nsWrapAroundFlagD2, adjustRetain, offsetAdjust := false, false, false, false, false;
    }

    /** The right-hand sides of the nonblocking assignments to the counters. */
    method SampleCounters(i: Inputs) returns (nextNs: int, nextSc: int)
      ensures nextNs == Next(Registers(), i).ns && nextSc == Next(Registers(), i).sc
    {
      hide Ns, Sc, Whole, FixedPoint, Signed33;
      var tmpNs1 := if tmpNsD1 < 0 then Signed33(tmpNsD1 + NS_PER_SECOND) else Signed33(tmpNsD1);
      if i.clear {
        nextNs, nextSc := 0, 0;
      } else if offsetAdjust {
        nextNs := Ns(FixedPoint(tmpNs1) + i.tick);
        nextSc := Sc(scCounterSub1 + i.scOffset);
      } else if nsWrapAroundFlag {
        nextNs := Ns(nsContrledReg - SECOND);
        nextSc := Sc(scCounter + 1);
      } else {
        nextNs := Ns(nsCounter + i.tick);
        nextSc := Sc(scCounter + 0);
      }
    }

    /** The right-hand sides for the wrap flag and the retain/adjust handshake. */
    method SampleFlags(i: Inputs) returns (nextWrap: bool, nextRetain: bool, nextAdjust: bool)
      ensures nextWrap == Next(Registers(), i).wrap
      ensures nextRetain == Next(Registers(), i).retain && nextAdjust == Next(Registers(), i).adjust
    {
      hide Ns, Sc, Whole, FixedPoint, Signed33;
      var flagP1 := Whole(Ns(nsCounter + i.tick)) > NS_PER_SECOND - 1;
      var blocked := flagP1 || nsWrapAroundFlag || nsWrapAroundFlagD1 || nsWrapAroundFlagD2;
      if nsWrapAroundFlag || nsWrapAroundFlagD1 {
        nextWrap := false;
      } else {
        nextWrap := flagP1;
      }
      if blocked && i.offsetValid {
        nextRetain := true;
      } else if offsetAdjust {
        nextRetain := false;
      } else {
        nextRetain := adjustRetain;
      }
      if blocked {
        nextAdjust := false;
      } else if offsetAdjust {
        nextAdjust := false;
      } else if adjustRetain {
        nextAdjust := true;
      } else {
        nextAdjust := i.offsetValid;
      }
    }

    method RisingEdge(i: Inputs)
      modifies this
      ensures Registers() == Next(old(Registers()), i)
    {
      hide Ns, Sc, Whole, FixedPoint, Signed33, Leaving, Busy, AdjustedNs;
      var nextNs, nextSc := SampleCounters(i);
      var nextWrap, nextRetain, nextAdjust := SampleFlags(i);
      var tmpNs := Signed33(Whole(nsContrledReg) + i.nsOffset);
      var syncedScDec := if tmpNsD1 < 0 then 1 else 0;
      scCounterSub1 := Sc(scCounter - syncedScDec);
      nsContrledReg := Ns(nsCounter + 2 * i.tick);
      tickIncD1, tmpNsD1 := i.tick, tmpNs;
      nsWrapAroundFlag, nsWrapAroundFlagD1, nsWrapAroundFlagD2 := nextWrap, nsWrapAroundFlag, nsWrapAroundFlagD1;
      adjustRetain, offsetAdjust := nextRetain, nextAdjust;
      nsCounter, scCounter := nextNs, nextSc;
    }
  }

  // ---- Time is conserved

  /** The time on the counter, in units of 2^-26 ns. */
  function Total(s: Regs): int {
    s.sc * SECOND + s.ns
  }

  /** Equal readings of a counter that starts over after 2^48 seconds. */
  predicate SameTime(a: int, b: int) {
    (a - b) % EPOCH == 0
  }

  /** What the registers must agree on for the wrap path, which uses a sum computed one cycle early, to be right. */
  predicate Consistent(s: Regs) {
    && InRange(s)
    && (s.wrap ==> !s.wrapD1 && SECOND <= s.ns < 2 * SECOND + 2 * TICK_RANGE && s.contrled == s.ns + s.tickD1)
    && (!s.wrap && s.wrapD1 ==> s.ns < SECOND + 3 * TICK_RANGE)
    && (!s.wrap && !s.wrapD1 ==> s.ns < 2 * SECOND + TICK_RANGE)
  }

  /**
   * In addition, the nanoseconds are at or above one second exactly while the wrap flag is set, and the early sum is
   * the present time plus the last tick except in the cycle after a wrap.
   */
  predicate Steady(s: Regs) {
    && Consistent(s)
    && (s.wrap <==> SECOND <= s.ns)
    && (s.wrap ==> s.ns < SECOND + TICK_RANGE)
    && (s.wrapD1 ==> s.ns < 2 * TICK_RANGE)
    && (s.wrapD2 ==> s.ns < 3 * TICK_RANGE && !s.wrap && !s.wrapD1)
    && (!s.wrapD1 ==> s.contrled == s.ns + s.tickD1)
  }

  lemma ResetIsSteady()
    ensures Steady(RESET)
  {}

  /** The tick that a cycle adds: while wrapping it is the tick of the cycle before, which the early sum was computed with. */
  function TickAdded(s: Regs, i: Inputs): int {
    if s.wrap then s.tickD1 else i.tick
  }

  /** The counters after a cycle without clear or adjust: no sum overflows its register. */
  lemma PlainCycle(s: Regs, i: Inputs)
    requires Consistent(s) && ValidInputs(i) && !s.adjust && !i.clear
    ensures Next(s, i).ns == s.ns + TickAdded(s, i) - if s.wrap then SECOND else 0
    ensures Next(s, i).contrled == s.ns + 2 * i.tick
    ensures Leaving(s, i) <==> SECOND <= s.ns + i.tick
    ensures InRange(Next(s, i))
  {
    assert s.ns + 2 * i.tick < NS_RANGE;
  }

  lemma PlainSeconds(s: Regs, i: Inputs)
    requires InRange(s) && !s.adjust && !i.clear
    ensures Next(s, i).sc == if !s.wrap then s.sc else if s.sc + 1 == SC_RANGE then 0 else s.sc + 1
  {
    hide Ns, Whole, Signed33, AdjustedNs, Leaving, Busy;
  }

  lemma StaysConsistent(s: Regs, i: Inputs)
    requires Consistent(s) && ValidInputs(i) && !s.adjust && !i.clear
    ensures Consistent(Next(s, i))
  {
    hide Ns, Sc, Whole, Signed33, AdjustedNs, Leaving, Busy;
    PlainCycle(s, i);
  }

  /** Without clear or adjust, every cycle adds one tick, through every wrap. */
  lemma ConservesTime(s: Regs, i: Inputs)
    requires Consistent(s) && ValidInputs(i) && !s.adjust && !i.clear
    ensures Consistent(Next(s, i))
    ensures SameTime(Total(Next(s, i)), Total(s) + TickAdded(s, i))
  {
    assert InRange(s);
    hide Next, SameTime, Consistent, InRange;
    PlainCycle(s, i);
    PlainSeconds(s, i);
    StaysConsistent(s, i);
    var n := Next(s, i);
    var turn := if s.wrap && s.sc + 1 == SC_RANGE then -EPOCH else 0;
    assert Total(n) - (Total(s) + TickAdded(s, i)) == turn;
    SameTimeTurn(Total(n), Total(s) + TickAdded(s, i));
  }

  lemma SameTimeTurn(a: int, b: int)
    requires a == b || a == b - EPOCH
    ensures SameTime(a, b)
  {}

  /** The flag and the counter agree in every cycle, and the flag is never set twice in a row. */
  lemma StaysSteady(s: Regs, i: Inputs)
    requires Steady(s) && ValidInputs(i) && !s.adjust && !i.clear
    ensures Steady(Next(s, i))
    ensures s.wrap ==> !Next(s, i).wrap
  {
    hide Ns, Sc, Whole, Signed33, AdjustedNs, Leaving, Busy, SameTime;
    PlainCycle(s, i);
    ConservesTime(s, i);
  }

  function Run(s: Regs, ins: seq<Inputs>): Regs
    decreases |ins|
  {
    if ins == [] then s else Next(Run(s, ins[..|ins| - 1]), ins[|ins| - 1])
  }

  predicate Quiet(ins: seq<Inputs>) {
    forall i | i in ins :: ValidInputs(i) && !i.clear && !i.offsetValid
  }

  lemma SameTimeAdd(a: int, b: int, c: int, tick: int)
    requires SameTime(a, b) && SameTime(c, a + tick)
    ensures SameTime(c, b + tick)
  {
    var p, q := (a - b) / EPOCH, (c - (a + tick)) / EPOCH;
    assert a - b == EPOCH * p && c - (a + tick) == EPOCH * q;
    assert c - (b + tick) == EPOCH * (p + q);
  }

  lemma NothingElapsed(t: int, tick: int)
    ensures SameTime(t, t + 0 * tick)
  {}

  lemma OneMoreCycle(e: Regs, i: Inputs, tick: int, due: int)
    requires Steady(e) && !e.adjust && !e.retain && ValidInputs(i) && !i.clear && !i.offsetValid && i.tick == tick
    requires (e.wrap ==> e.tickD1 == tick) && SameTime(Total(e), due)
    ensures var n := Next(e, i);
      && Steady(n) && !n.adjust && !n.retain && (n.wrap ==> n.tickD1 == tick) && SameTime(Total(n), due + tick)
  {
    StaysSteady(e, i);
    ConservesTime(e, i);
    hide Steady, Total, SameTime, Ns, Sc, Whole, Leaving;
    SameTimeAdd(Total(e), due, Total(Next(e, i)), tick);
  }

  /** A whole run at one tick rate: n cycles advance the time by exactly n ticks, whatever wraps on the way. */
  lemma {:induction false} RunConservesTime(s: Regs, ins: seq<Inputs>, tick: int)
    requires Steady(s) && !s.adjust && !s.retain && Quiet(ins)
    requires (s.wrap ==> s.tickD1 == tick) && forall i | i in ins :: i.tick == tick
    ensures var e := Run(s, ins);
      && Steady(e) && !e.adjust && !e.retain && (e.wrap ==> e.tickD1 == tick)
      && SameTime(Total(e), Total(s) + |ins| * tick)
    decreases |ins|
  {
    hide Steady, Total, SameTime, Next;
    if ins == [] {
      NothingElapsed(Total(s), tick);
    } else {
      var before, last := ins[..|ins| - 1], ins[|ins| - 1];
      assert last in ins && forall i | i in before :: i in ins;
      RunConservesTime(s, before, tick);
      OneMoreCycle(Run(s, before), last, tick, Total(s) + |before| * tick);
      assert |ins| * tick == |before| * tick + tick;
    }
  }

  // ---- Back to a steady state

  predicate Idle(s: Regs) { !s.adjust && !s.retain }

  /** How many quiet cycles a consistent idle state may still need to become steady. */
  function Unsettled(s: Regs): nat {
    if Steady(s) then 0
    else if s.wrap then if s.ns < 2 * SECOND - 3 * TICK_RANGE then 3 else 6
    else if s.wrapD1 then if s.ns < SECOND - 2 * TICK_RANGE then 2 else 5
    else if s.ns < SECOND - TICK_RANGE then 1
    else if s.ns < 2 * SECOND - 4 * TICK_RANGE then 4
    else 7
  }

  lemma SettlesByOne(s: Regs, i: Inputs)
    requires Consistent(s) && Idle(s) && ValidInputs(i) && !i.clear && !i.offsetValid
    ensures var n := Next(s, i);
      Consistent(n) && Idle(n) && n.tickD1 == i.tick && (Unsettled(n) < Unsettled(s) || Unsettled(n) == 0)
  {
    hide Ns, Sc, Whole, Signed33, AdjustedNs, SameTime, Leaving;
    PlainCycle(s, i);
    StaysConsistent(s, i);
    if Steady(s) {
      StaysSteady(s, i);
    }
  }

  /** Quiet cycles conserve time from any consistent state, and after seven of them the state is steady again. */
  lemma {:induction false} RunSettles(s: Regs, ins: seq<Inputs>, tick: int)
    requires Consistent(s) && Idle(s) && Quiet(ins) && s.tickD1 == tick && forall i | i in ins :: i.tick == tick
    ensures var e := Run(s, ins);
      && Consistent(e) && Idle(e) && e.tickD1 == tick && SameTime(Total(e), Total(s) + |ins| * tick)
      && (Unsettled(e) == 0 || Unsettled(e) + |ins| <= Unsettled(s))
    decreases |ins|
  {
    hide Steady, Total, SameTime, Next, Consistent, Idle, ValidInputs, Unsettled;
    if ins == [] {
      NothingElapsed(Total(s), tick);
    } else {
      var before, last := ins[..|ins| - 1], ins[|ins| - 1];
      assert last in ins && forall i | i in before :: i in ins;
      RunSettles(s, before, tick);
      SettlesByOne(Run(s, before), last);
      IdleConserves(Run(s, before), last, Total(s) + |before| * tick);
      assert |ins| * tick == |before| * tick + tick;
    }
  }

  lemma SettledIff(s: Regs)
    ensures Unsettled(s) == 0 <==> Steady(s)
    ensures Unsettled(s) <= 7
  {}

  lemma IdleConserves(s: Regs, i: Inputs, due: int)
    requires Consistent(s) && Idle(s) && ValidInputs(i) && !i.clear && s.tickD1 == i.tick && SameTime(Total(s), due)
    ensures SameTime(Total(Next(s, i)), due + i.tick)
  {
    hide Consistent, SameTime, Total, Next;
    ConservesTime(s, i);
    SameTimeAdd(Total(s), due, Total(Next(s, i)), i.tick);
  }

  // ---- The offset handshake

  /** How many more cycles the current wrap keeps the adjustment away. */
  function Phase(s: Regs, i: Inputs): nat {
    if s.wrap then 3
    else if s.wrapD1 then 2
    else if s.wrapD2 then 1
    else if Leaving(s, i) then 4
    else 0
  }

  predicate StepsOnce(ins: seq<Inputs>) {
    && ins != [] && ins[0].offsetValid
    && (forall i | i in ins :: ValidInputs(i) && !i.clear)
    && (forall k | 0 < k < |ins| :: !ins[k].offsetValid)
  }

  lemma BusyIsPhase(s: Regs, i: Inputs)
    ensures Busy(s, i) <==> Phase(s, i) > 0
  {}

  lemma PhaseCountsDown(s: Regs, i: Inputs, j: Inputs)
    requires Steady(s) && ValidInputs(i) && ValidInputs(j) && !s.adjust && !i.clear && Phase(s, i) > 0
    ensures Phase(Next(s, i), j) == Phase(s, i) - 1
  {
    StaysSteady(s, i);
  }

  /** Until the adjustment the pulse is remembered; afterwards nothing is pending. */
  lemma {:induction false} PulseState(s: Regs, ins: seq<Inputs>, n: nat)
    requires Steady(s) && !s.adjust && !s.retain && StepsOnce(ins) && 0 < n <= |ins|
    ensures var p := Phase(s, ins[0]);
      var e := Run(s, ins[..n]);
      && (n <= p ==> Steady(e) && !e.adjust && e.retain && (n < |ins| ==> Phase(e, ins[n]) == p - n))
      && (n == p + 1 ==> e.adjust)
      && (n > p + 1 ==> !e.adjust && !e.retain)
  {
    hide Leaving, Steady, Phase, Ns, Sc, Whole, AdjustedNs;
    var before := Run(s, ins[..n - 1]);
    assert ins[..n][..n - 1] == ins[..n - 1] && ins[n - 1] in ins;
    assert n < |ins| ==> ins[n] in ins;
    if n > 1 {
      PulseState(s, ins, n - 1);
    } else {
      assert ins[..0] == [] && before == s;
    }
    BusyIsPhase(before, ins[n - 1]);
    if n <= Phase(s, ins[0]) {
      StaysSteady(before, ins[n - 1]);
      if n < |ins| {
        PhaseCountsDown(before, ins[n - 1], ins[n]);
      }
    }
  }

  /** Every pulse on an idle handshake yields exactly one adjust cycle, at most five cycles later. */
  lemma ExactlyOneAdjust(s: Regs, ins: seq<Inputs>, n: nat)
    requires Steady(s) && !s.adjust && !s.retain && StepsOnce(ins) && n <= |ins|
    ensures Phase(s, ins[0]) <= 4
    ensures Run(s, ins[..n]).adjust <==> n == Phase(s, ins[0]) + 1
  {
    if n > 0 {
      PulseState(s, ins, n);
    }
  }

  // ---- The adjust cycle

  /** The time an adjust cycle is meant to leave: fractions dropped, offset and one tick added. */
  function Adjusted(s: Regs, i: Inputs, nsOffset: int): int {
    (s.sc + i.scOffset) * SECOND + (Whole(s.ns) + nsOffset) * ONE_NS + i.tick
  }

  /** The cycle before an adjust cycle: the early sum is the time that the adjust cycle starts from. */
  predicate BeforeAdjust(s: Regs, i: Inputs) {
    && Consistent(s) && !s.adjust && ValidInputs(i) && !i.clear && s.contrled == s.ns + i.tick
    && Next(s, i).adjust && -NS_PER_SECOND < i.nsOffset < NS_PER_SECOND
  }

  /** What the offset and borrow registers hold in an adjust cycle. */
  predicate Guarded(s: Regs, nsOffset: int, borrowed: bool) {
    && InRange(s) && s.adjust && 0 <= s.ns < SECOND && -NS_PER_SECOND < nsOffset < NS_PER_SECOND
    && s.tmpNs == Signed33(Whole(s.ns) + nsOffset) && s.scSub == Sc(s.sc - if borrowed then 1 else 0)
  }

  /** What the retain/adjust guard gives a cycle in which offset_adjust is set. */
  lemma GuardedCycle(s1: Regs, i1: Inputs)
    requires BeforeAdjust(s1, i1)
    ensures var s2 := Next(s1, i1);
      && !s2.wrap && !s2.wrapD1 && Consistent(s2) && Guarded(s2, i1.nsOffset, s1.tmpNs < 0)
      && s2.ns == s1.ns + i1.tick && s2.sc == s1.sc && s2.tickD1 == i1.tick
  {
    assert !s1.wrap && !s1.wrapD1 && !Leaving(s1, i1);
    hide Ns, Whole, Signed33, AdjustedNs, Leaving, Busy, SameTime;
    PlainCycle(s1, i1);
    ConservesTime(s1, i1);
  }

  /**
   * An adjust cycle is exact if and only if the registered borrow, one cycle older than the nanosecond sum, has the
   * sign of that sum; otherwise the time comes out one second off.
   */
  lemma AdjustIsExactIff(s1: Regs, i1: Inputs, i2: Inputs)
    requires BeforeAdjust(s1, i1) && ValidInputs(i2) && !i2.clear
    ensures var s2 := Next(s1, i1);
      SameTime(Total(Next(s2, i2)), Adjusted(s2, i2, i1.nsOffset)) <==> (s1.tmpNs < 0 <==> s2.tmpNs < 0)
  {
    hide Next;
    var s2 := Next(s1, i1);
    GuardedCycle(s1, i1);
    var k := AdjustError(s2, i2, i1.nsOffset, s1.tmpNs < 0);
    SmallMultiple(Missed(s2, s1.tmpNs < 0), k);
  }

  /** The seconds by which a wrong borrow misses. */
  function Missed(s: Regs, borrowed: bool): int {
    (if s.tmpNs < 0 then 1 else 0) - if borrowed then 1 else 0
  }

  lemma AdjustError(s: Regs, i: Inputs, nsOffset: int, borrowed: bool) returns (k: int)
    requires Guarded(s, nsOffset, borrowed) && ValidInputs(i) && !i.clear
    ensures Total(Next(s, i)) == Adjusted(s, i, nsOffset) + Missed(s, borrowed) * SECOND - EPOCH * k
  {
    k := SyncedSeconds(s, i, borrowed);
    SyncedNs(s, i, nsOffset);
    hide Next, InRange, Signed33, Whole, Sc;
  }

  lemma SyncedNs(s: Regs, i: Inputs, nsOffset: int)
    requires InRange(s) && ValidInputs(i) && !i.clear && s.adjust && 0 <= s.ns < SECOND
    requires -NS_PER_SECOND < nsOffset < NS_PER_SECOND && s.tmpNs == Signed33(Whole(s.ns) + nsOffset)
    ensures s.tmpNs == Whole(s.ns) + nsOffset
    ensures Next(s, i).ns == (s.tmpNs + if s.tmpNs < 0 then NS_PER_SECOND else 0) * ONE_NS + i.tick < 2 * SECOND + TICK_RANGE
  {
    hide Sc, Leaving, Busy, Signed33, AdjustedNs, Whole, FixedPoint, InRange;
    WholeBelowSecond(s.ns);
    SmallSigned33(Whole(s.ns) + nsOffset);
    AdjustedNsIs(s);
    FixedPointIs(AdjustedNs(s));
    FitsNs(AdjustedNs(s) * ONE_NS + i.tick);
  }

  lemma WholeBelowSecond(ns: int)
    requires 0 <= ns < SECOND
    ensures 0 <= Whole(ns) < NS_PER_SECOND
  {}

  lemma SmallSigned33(x: int)
    requires -TICK_RANGE <= x < TICK_RANGE
    ensures Signed33(x) == x
  {}

  lemma AdjustedNsIs(s: Regs)
    requires -NS_PER_SECOND < s.tmpNs < 2 * NS_PER_SECOND
    ensures AdjustedNs(s) == s.tmpNs + if s.tmpNs < 0 then NS_PER_SECOND else 0
  {}

  lemma FixedPointIs(ns: int)
    requires 0 <= ns < TICK_RANGE
    ensures FixedPoint(ns) == ns * ONE_NS
  {}

  lemma FitsNs(x: int)
    requires 0 <= x < NS_RANGE
    ensures Ns(x) == x
  {}

  lemma SyncedSeconds(s: Regs, i: Inputs, borrowed: bool) returns (k: int)
    requires !i.clear && s.adjust && s.scSub == Sc(s.sc - if borrowed then 1 else 0)
    ensures Next(s, i).sc == s.sc - (if borrowed then 1 else 0) + i.scOffset - SC_RANGE * k
  {
    hide Ns, Whole, Signed33, AdjustedNs, Leaving, Busy;
    var b := if borrowed then 1 else 0;
    k := (s.scSub + i.scOffset) / SC_RANGE + (s.sc - b) / SC_RANGE;
  }

  lemma SmallMultiple(d: int, k: int)
    requires -1 <= d <= 1
    ensures (d * SECOND - EPOCH * k) % EPOCH == 0 <==> d == 0
  {
    if d == 1 {
      assert SECOND - EPOCH * k == EPOCH * -k + SECOND;
    } else if d == -1 {
      assert -SECOND - EPOCH * k == EPOCH * (-k - 1) + (EPOCH - SECOND);
    }
  }

  /** Stepping by no nanoseconds at a whole nanosecond: the wrap path has nothing to lose. */
  predicate NothingToLose(s: Regs, nsOffset: int) {
    nsOffset == 0 && s.ns % ONE_NS == 0
  }

  /**
   * Whether the cycle after an adjust cycle still builds on it: if the old time was about to leave its second, the
   * wrap path restores the sum taken before the adjustment, and the nanosecond offset is lost.
   */
  lemma AdjustSurvivesIff(s1: Regs, i1: Inputs, i2: Inputs, i3: Inputs)
    requires BeforeAdjust(s1, i1) && ValidInputs(i2) && ValidInputs(i3) && !i2.clear && !i3.clear
    requires i1.tick == i2.tick == i3.tick
    ensures var s2 := Next(s1, i1); var s3 := Next(s2, i2);
      SameTime(Total(Next(s3, i3)), Total(s3) + i3.tick) <==> !Leaving(s2, i2) || NothingToLose(s2, i1.nsOffset)
  {
    var s2 := Next(s1, i1);
    GuardedCycle(s1, i1);
    AdjustedCycle(s2, i2, i1.nsOffset);
    var s3 := Next(s2, i2);
    if Leaving(s2, i2) {
      hide Next, Consistent;
      var turn := StaleWrap(s2, i2, i3);
      LostOffset(s2, i2, i1.nsOffset);
      SmallDifference(s2.ns + i2.tick - s3.ns, turn);
    } else {
      hide Next;
      ConservesTime(s3, i3);
    }
  }

  lemma AdjustedCycle(s: Regs, i: Inputs, nsOffset: int)
    requires InRange(s) && ValidInputs(i) && !i.clear && s.adjust && 0 <= s.ns < SECOND && !s.wrap && !s.wrapD1
    requires -NS_PER_SECOND < nsOffset < NS_PER_SECOND && s.tmpNs == Signed33(Whole(s.ns) + nsOffset)
    ensures var n := Next(s, i);
      InRange(n) && 0 <= n.ns < 2 * SECOND + TICK_RANGE && !n.adjust && !n.wrapD1 && (n.wrap <==> Leaving(s, i))
      && n.contrled == s.ns + 2 * i.tick && n.tickD1 == i.tick && (!Leaving(s, i) ==> Consistent(n))
  {
    SyncedNs(s, i, nsOffset);
  }

  /** The wrap after an adjust cycle that left its second: the sum from before the adjustment comes back. */
  lemma StaleWrap(s: Regs, i: Inputs, j: Inputs) returns (turn: int)
    requires InRange(s) && ValidInputs(i) && ValidInputs(j) && !j.clear && s.ns < SECOND && Leaving(s, i) && i.tick == j.tick
    requires var n := Next(s, i);
      InRange(n) && 0 <= n.ns < 2 * SECOND + TICK_RANGE && !n.adjust && n.wrap && n.contrled == s.ns + 2 * i.tick
    ensures 0 <= turn <= 1
    ensures var n := Next(s, i);
      Total(Next(n, j)) - (Total(n) + j.tick) == s.ns + i.tick - n.ns - EPOCH * turn && Consistent(Next(n, j))
  {
    var n := Next(s, i);
    var m := Next(n, j);
    PlainSeconds(n, j);
    assert s.ns + i.tick >= SECOND;
    assert m.ns == s.ns + 2 * i.tick - SECOND;
    assert Consistent(m);
    hide Next, InRange, Leaving, Consistent;
    turn := if n.sc + 1 == SC_RANGE then 1 else 0;
  }

  lemma LostOffset(s: Regs, i: Inputs, nsOffset: int)
    requires InRange(s) && ValidInputs(i) && !i.clear && s.adjust && 0 <= s.ns < SECOND
    requires -NS_PER_SECOND < nsOffset < NS_PER_SECOND && s.tmpNs == Signed33(Whole(s.ns) + nsOffset)
    ensures s.ns + i.tick - Next(s, i).ns
         == s.ns % ONE_NS - nsOffset * ONE_NS - if s.tmpNs < 0 then SECOND else 0
    ensures s.ns + i.tick == Next(s, i).ns <==> NothingToLose(s, nsOffset)
  {
    hide Next, Signed33, InRange;
    SyncedNs(s, i, nsOffset);
    assert s.ns == Whole(s.ns) * ONE_NS + s.ns % ONE_NS;
  }

  lemma SmallDifference(d: int, turn: int)
    requires -EPOCH < d < EPOCH && 0 <= turn <= 1
    ensures (d - EPOCH * turn) % EPOCH == 0 <==> d == 0
  {}

  // ---- Clearing the counter

  /** clear_rtc_i empties the counter, but not the wrap flag computed in the same cycle: the clock restarts
      from zero if and only if it was not leaving its second just then. */
  lemma ClearIsExactIff(s: Regs, i: Inputs, j: Inputs)
    requires Steady(s) && ValidInputs(i) && ValidInputs(j) && i.clear && !j.clear
    requires !s.retain && !i.offsetValid
    ensures Total(Next(s, i)) == 0
    ensures Total(Next(Next(s, i), j)) == j.tick <==> (s.wrap || s.wrapD1 || !Leaving(s, i))
  {
    var n := Next(s, i);
    assert n.contrled == s.ns + 2 * i.tick;
    if n.wrap {
      assert s.ns + i.tick >= SECOND;
      assert Next(n, j).ns == s.ns + 2 * i.tick - SECOND && Next(n, j).sc == 1;
    }
  }

  // ---- Stepping the clock from software

  /** setRtcValue: the two second-offset registers, read back by the counter as one signed 48-bit number. */
  function SecondsField(sec: int): int {
    var high, low := sec / 0x1_0000_0000 % 0x1_0000, sec % 0x1_0000_0000;
    var raw := high * 0x1_0000_0000 + low;
    if raw < SC_RANGE / 2 then raw else raw - SC_RANGE
  }

  lemma SecondsFieldIsCongruent(sec: int) returns (k: int)
    ensures SecondsField(sec) == sec + SC_RANGE * k && -SC_RANGE / 2 <= SecondsField(sec) < SC_RANGE / 2
  {
    var q := sec / 0x1_0000_0000;
    k := -(q / 0x1_0000);
    assert sec == q * 0x1_0000_0000 + sec % 0x1_0000_0000;
    assert q == q / 0x1_0000 * 0x1_0000 + q % 0x1_0000;
    if q % 0x1_0000 * 0x1_0000_0000 + sec % 0x1_0000_0000 >= SC_RANGE / 2 {
      k := k - 1;
    }
  }

  /**
   * servo_perform_clock_step with setRtcValue: when the adjust cycle is exact, it takes the measured offset
   * (offSeconds, offNanos) off the clock and leaves the fraction of a nanosecond and the usual tick.
   */
  lemma ClockStepSubtractsOffset(s1: Regs, i1: Inputs, i2: Inputs, offSeconds: int, offNanos: int)
    requires BeforeAdjust(s1, i1) && ValidInputs(i2) && !i2.clear
    requires i1.nsOffset == -offNanos && i2.scOffset == SecondsField(-offSeconds)
    requires s1.tmpNs < 0 <==> Next(s1, i1).tmpNs < 0
    ensures var s2 := Next(s1, i1);
      SameTime(Total(Next(s2, i2)), Total(s2) - s2.ns % ONE_NS - (offSeconds * SECOND + offNanos * ONE_NS) + i2.tick)
  {
    var s2 := Next(s1, i1);
    AdjustIsExactIff(s1, i1, i2);
    var k := SecondsFieldIsCongruent(-offSeconds);
    var due := Total(s2) - s2.ns % ONE_NS - (offSeconds * SECOND + offNanos * ONE_NS) + i2.tick;
    assert s2.ns == Whole(s2.ns) * ONE_NS + s2.ns % ONE_NS;
    hide Next, SecondsField, Whole, BeforeAdjust;
    assert Adjusted(s2, i2, i1.nsOffset) == due + EPOCH * k;
    SameTimeShift(Total(Next(s2, i2)), due, k);
  }

  lemma SameTimeShift(a: int, b: int, k: int)
    requires SameTime(a, b + EPOCH * k)
    ensures SameTime(a, b)
  {
    var q := (a - (b + EPOCH * k)) / EPOCH;
    assert a - b == EPOCH * (q + k);
  }

  // ---- From a pulse to the time it leaves

  /** One pulse in the first cycle, with one tick rate and stable offsets. */
  predicate StablePulse(ins: seq<Inputs>, tick: int, nsOffset: int, scOffset: int) {
    && StepsOnce(ins) && -NS_PER_SECOND < nsOffset < NS_PER_SECOND
    && forall i | i in ins :: i.tick == tick && i.nsOffset == nsOffset && i.scOffset == scOffset
  }

  lemma {:induction false} RunConcat(s: Regs, a: seq<Inputs>, b: seq<Inputs>)
    ensures Run(s, a + b) == Run(Run(s, a), b)
    decreases |b|
  {
    if b == [] {
      assert a + b == a;
    } else {
      assert (a + b)[..|a + b| - 1] == a + b[..|b| - 1] && (a + b)[|a + b| - 1] == b[|b| - 1];
      RunConcat(s, a, b[..|b| - 1]);
    }
  }

  /** Up to its adjust cycle a pulse does not disturb the time. */
  lemma {:induction false} UntilAdjust(s: Regs, ins: seq<Inputs>, n: nat, tick: int)
    requires Steady(s) && Idle(s) && s.tickD1 == tick && StepsOnce(ins) && forall i | i in ins :: i.tick == tick
    requires n <= |ins| && n <= Phase(s, ins[0]) + 1
    ensures var e := Run(s, ins[..n]); SameTime(Total(e), Total(s) + n * tick) && e.tickD1 == tick
    decreases n
  {
    hide Steady, Total, SameTime, Phase, ValidInputs, Idle, Next;
    if n == 0 {
      assert ins[..0] == [];
      NothingElapsed(Total(s), tick);
    } else {
      assert ins[..n][..n - 1] == ins[..n - 1] && ins[n - 1] in ins;
      UntilAdjust(s, ins, n - 1, tick);
      SteadyUntilAdjust(s, ins, n - 1);
      SteadyConserves(Run(s, ins[..n - 1]), ins[n - 1], Total(s) + (n - 1) * tick);
      assert n * tick == (n - 1) * tick + tick;
    }
  }

  lemma SteadyUntilAdjust(s: Regs, ins: seq<Inputs>, n: nat)
    requires Steady(s) && Idle(s) && StepsOnce(ins) && n < |ins| && n <= Phase(s, ins[0])
    ensures var e := Run(s, ins[..n]); Steady(e) && !e.adjust && Phase(e, ins[n]) == Phase(s, ins[0]) - n
  {
    if n == 0 {
      assert ins[..0] == [];
    } else {
      PulseState(s, ins, n);
    }
  }

  lemma SteadyConserves(s: Regs, i: Inputs, due: int)
    requires Steady(s) && !s.adjust && ValidInputs(i) && !i.clear && s.tickD1 == i.tick && SameTime(Total(s), due)
    ensures SameTime(Total(Next(s, i)), due + i.tick) && Next(s, i).tickD1 == i.tick
  {
    hide SameTime, Total;
    ConservesTime(s, i);
    SameTimeAdd(Total(s), due, Total(Next(s, i)), i.tick);
  }

  /** In the last cycle before the adjustment the guard's hypothesis holds by itself. */
  lemma PulseIsGuarded(s: Regs, ins: seq<Inputs>, tick: int, nsOffset: int, scOffset: int)
    requires Steady(s) && Idle(s) && s.tickD1 == tick && StablePulse(ins, tick, nsOffset, scOffset)
    requires |ins| >= Phase(s, ins[0]) + 3
    ensures var p := Phase(s, ins[0]);
      BeforeAdjust(Run(s, ins[..p]), ins[p]) && Run(s, ins[..p + 1]) == Next(Run(s, ins[..p]), ins[p])
  {
    var p := Phase(s, ins[0]);
    assert ins[p] in ins && ins[..p + 1][..p] == ins[..p];
    SteadyUntilAdjust(s, ins, p);
    UntilAdjust(s, ins, p, tick);
    ExactlyOneAdjust(s, ins, p + 1);
    var s1 := Run(s, ins[..p]);
    hide StepsOnce, Run;
    BusyIsPhase(s1, ins[p]);
  }

  /** How far off the time is in the second cycle after an adjust cycle, apart from whole periods. */
  function StepError(s1: Regs, s2: Regs, i2: Inputs, nsOffset: int): int {
    if Leaving(s2, i2) then s2.ns % ONE_NS - nsOffset * ONE_NS - if s1.tmpNs < 0 then SECOND else 0
    else Missed(s2, s1.tmpNs < 0) * SECOND
  }

  lemma ErrorAfterAdjust(s1: Regs, i1: Inputs, i2: Inputs, i3: Inputs) returns (k: int)
    requires BeforeAdjust(s1, i1) && ValidInputs(i2) && ValidInputs(i3) && !i2.clear && !i3.clear
    requires i1.tick == i2.tick == i3.tick
    ensures var s2 := Next(s1, i1); var s4 := Next(Next(s2, i2), i3);
      && Consistent(s4) && s4.tickD1 == i3.tick
      && Total(s4) == Adjusted(s2, i2, i1.nsOffset) + i3.tick - EPOCH * k + StepError(s1, s2, i2, i1.nsOffset)
  {
    hide Next, Consistent, Adjusted, Leaving, Total, Guarded;
    var s2 := Next(s1, i1);
    GuardedCycle(s1, i1);
    if Leaving(s2, i2) {
      k := ErrorOfLeaving(s2, i2, i3, i1.nsOffset, s1.tmpNs < 0);
    } else {
      k := ErrorOfBorrow(s2, i2, i3, i1.nsOffset, s1.tmpNs < 0);
    }
    LatchesTick(Next(s2, i2), i3);
  }

  lemma LatchesTick(s: Regs, i: Inputs)
    ensures Next(s, i).tickD1 == i.tick
  {}

  lemma ErrorOfLeaving(s: Regs, i: Inputs, j: Inputs, nsOffset: int, borrowed: bool) returns (k: int)
    requires Guarded(s, nsOffset, borrowed) && !s.wrap && !s.wrapD1 && Leaving(s, i)
    requires ValidInputs(i) && ValidInputs(j) && !i.clear && !j.clear && i.tick == j.tick
    ensures Consistent(Next(Next(s, i), j))
    ensures Total(Next(Next(s, i), j)) == Adjusted(s, i, nsOffset) + j.tick - EPOCH * k
      + s.ns % ONE_NS - nsOffset * ONE_NS - if borrowed then SECOND else 0
  {
    hide Next, Consistent, Leaving, Adjusted, Total, Signed33, Sc, Whole, InRange;
    AdjustedCycle(s, i, nsOffset);
    var k0 := AdjustError(s, i, nsOffset, borrowed);
    var turn := StaleWrap(s, i, j);
    LostOffset(s, i, nsOffset);
    k := k0 + turn;
  }

  lemma ErrorOfBorrow(s: Regs, i: Inputs, j: Inputs, nsOffset: int, borrowed: bool) returns (k: int)
    requires Guarded(s, nsOffset, borrowed) && !s.wrap && !s.wrapD1 && !Leaving(s, i)
    requires ValidInputs(i) && ValidInputs(j) && !i.clear && !j.clear && i.tick == j.tick
    ensures Consistent(Next(Next(s, i), j))
    ensures Total(Next(Next(s, i), j))
         == Adjusted(s, i, nsOffset) + j.tick - EPOCH * k + Missed(s, borrowed) * SECOND
  {
    hide Next, Consistent, Leaving, Adjusted, Total, Signed33, Sc, Whole, InRange;
    AdjustedCycle(s, i, nsOffset);
    var k0 := AdjustError(s, i, nsOffset, borrowed);
    var k1 := ConservesExactly(Next(s, i), j);
    k := k0 + k1;
  }

  lemma ConservesExactly(s: Regs, i: Inputs) returns (k: int)
    requires Consistent(s) && ValidInputs(i) && !s.adjust && !i.clear && s.tickD1 == i.tick
    ensures Consistent(Next(s, i)) && Total(Next(s, i)) == Total(s) + i.tick - EPOCH * k
  {
    ConservesTime(s, i);
    k := -((Total(Next(s, i)) - (Total(s) + i.tick)) / EPOCH);
  }

  /** The two ways in which a step can go wrong, neither of which can make up for the other. */
  predicate StepHolds(s1: Regs, s2: Regs, i2: Inputs, nsOffset: int) {
    (s1.tmpNs < 0 <==> s2.tmpNs < 0) && (Leaving(s2, i2) ==> NothingToLose(s2, nsOffset))
  }

  lemma ErrorIsZeroIff(s1: Regs, s2: Regs, i2: Inputs, nsOffset: int, k: int)
    requires -NS_PER_SECOND < nsOffset < NS_PER_SECOND && 0 <= s2.ns < SECOND && s2.tmpNs == Signed33(Whole(s2.ns) + nsOffset)
    ensures (StepError(s1, s2, i2, nsOffset) - EPOCH * k) % EPOCH == 0 <==> StepHolds(s1, s2, i2, nsOffset)
  {
    hide Leaving;
    if Leaving(s2, i2) {
      var e := s2.ns % ONE_NS - nsOffset * ONE_NS - if s1.tmpNs < 0 then SECOND else 0;
      assert 0 <= Whole(s2.ns) < NS_PER_SECOND;
      assert e == 0 <==> s2.ns % ONE_NS == 0 && nsOffset == 0 && s1.tmpNs >= 0;
      SmallError(e, k);
    } else {
      SmallMultiple(Missed(s2, s1.tmpNs < 0), k);
    }
  }

  lemma SmallError(e: int, k: int)
    requires -EPOCH < e < EPOCH
    ensures (e - EPOCH * k) % EPOCH == 0 <==> e == 0
  {
    AddPeriods(e, -k);
  }

  /**
   * From a pulse on an idle steady clock to any later cycle: the time is the old time, plus a tick per cycle, plus the
   * offset, less the dropped fraction, if and only if the borrow had the right sign and the clock was not about to
   * leave its second (or had nothing to lose). Ten cycles after the adjust cycle at most the clock is steady again.
   */
  lemma PulseStepsClockIff(s: Regs, ins: seq<Inputs>, tick: int, nsOffset: int, scOffset: int)
    requires Steady(s) && Idle(s) && s.tickD1 == tick && StablePulse(ins, tick, nsOffset, scOffset)
    requires |ins| >= Phase(s, ins[0]) + 3
    ensures var p := Phase(s, ins[0]); var s2 := Run(s, ins[..p + 1]); var e := Run(s, ins);
      && (SameTime(Total(e), Total(s) + |ins| * tick + scOffset * SECOND + nsOffset * ONE_NS - s2.ns % ONE_NS)
          <==> StepHolds(Run(s, ins[..p]), s2, ins[p + 1], nsOffset))
      && Idle(e) && e.tickD1 == tick && (|ins| >= p + 10 ==> Steady(e))
  {
    hide Steady, Consistent, Next, SameTime, Phase, Adjusted, BeforeAdjust, Leaving, Signed33, Idle, Total, StepHolds;
    hide Unsettled, StepError, ValidInputs, Run, Whole;
    var p := Phase(s, ins[0]);
    PulseIsGuarded(s, ins, tick, nsOffset, scOffset);
    UntilAdjust(s, ins, p + 1, tick);
    var s1, s2 := Run(s, ins[..p]), Run(s, ins[..p + 1]);
    AllIn(ins, p);
    GuardedCycle(s1, ins[p]);
    var k := ErrorAfterAdjust(s1, ins[p], ins[p + 1], ins[p + 2]);
    var s4 := Next(Next(s2, ins[p + 1]), ins[p + 2]);
    TwoMore(s, ins, p + 1);
    IdleAfter(s, ins, p + 3);
    ThenQuiet(s, ins, p + 3, tick);
    ErrorIsZeroIff(s1, s2, ins[p + 1], nsOffset, k);
    FinalTime(s, s2, s4, Run(s, ins), ins[p + 1], |ins|, p, tick, nsOffset, k, StepError(s1, s2, ins[p + 1], nsOffset));
  }

  lemma ThenQuiet(s: Regs, ins: seq<Inputs>, n: nat, tick: int)
    requires StepsOnce(ins) && 0 < n <= |ins| && forall i | i in ins :: i.tick == tick
    requires var m := Run(s, ins[..n]); Consistent(m) && Idle(m) && m.tickD1 == tick
    ensures var m := Run(s, ins[..n]); var e := Run(s, ins);
      && Idle(e) && e.tickD1 == tick && SameTime(Total(e), Total(m) + (|ins| - n) * tick) && (|ins| - n >= 7 ==> Steady(e))
  {
    hide Steady, Consistent, Next, SameTime, Idle, Total, Unsettled, ValidInputs;
    var m := Run(s, ins[..n]);
    assert ins == ins[..n] + ins[n..];
    RunConcat(s, ins[..n], ins[n..]);
    RestIsQuiet(ins, n);
    RunSettles(m, ins[n..], tick);
    SettledIff(m);
    SettledIff(Run(m, ins[n..]));
  }

  lemma AllIn(ins: seq<Inputs>, p: nat)
    requires p + 2 < |ins|
    ensures ins[p] in ins && ins[p + 1] in ins && ins[p + 2] in ins
  {}

  lemma TwoMore(s: Regs, ins: seq<Inputs>, n: nat)
    requires n + 2 <= |ins|
    ensures Run(s, ins[..n + 2]) == Next(Next(Run(s, ins[..n]), ins[n]), ins[n + 1])
  {
    assert ins[..n + 2][..n + 1] == ins[..n + 1] && ins[..n + 1][..n] == ins[..n];
    hide Next;
  }

  lemma IdleAfter(s: Regs, ins: seq<Inputs>, n: nat)
    requires Steady(s) && Idle(s) && StepsOnce(ins) && Phase(s, ins[0]) + 1 < n <= |ins|
    ensures Idle(Run(s, ins[..n]))
  {
    PulseState(s, ins, n);
  }

  lemma RestIsQuiet(ins: seq<Inputs>, n: nat)
    requires StepsOnce(ins) && 0 < n <= |ins|
    ensures Quiet(ins[n..]) && forall i | i in ins[n..] :: i in ins
  {
    hide ValidInputs;
    forall i | i in ins[n..]
      ensures i in ins && !i.offsetValid
    {
      var k :| 0 <= k < |ins[n..]| && ins[n..][k] == i;
      assert ins[n + k] == i;
    }
  }

  lemma FinalTime(s: Regs, s2: Regs, s4: Regs, e: Regs, i2: Inputs, n: nat, p: nat, tick: int, nsOffset: int, k: int, err: int)
    requires n >= p + 3 && i2.tick == tick
    requires SameTime(Total(s2), Total(s) + (p + 1) * tick)
    requires Total(s4) == Adjusted(s2, i2, nsOffset) + tick - EPOCH * k + err
    requires SameTime(Total(e), Total(s4) + (n - (p + 3)) * tick)
    ensures SameTime(Total(e), Total(s) + n * tick + i2.scOffset * SECOND + nsOffset * ONE_NS - s2.ns % ONE_NS)
      <==> (err - EPOCH * k) % EPOCH == 0
  {
    var a := (Total(s2) - (Total(s) + (p + 1) * tick)) / EPOCH;
    var b := (Total(e) - (Total(s4) + (n - (p + 3)) * tick)) / EPOCH;
    assert s2.ns == Whole(s2.ns) * ONE_NS + s2.ns % ONE_NS;
    assert Adjusted(s2, i2, nsOffset) == Total(s2) - s2.ns % ONE_NS + i2.scOffset * SECOND + nsOffset * ONE_NS + tick;
    var due := Total(s) + n * tick + i2.scOffset * SECOND + nsOffset * ONE_NS - s2.ns % ONE_NS;
    assert (p + 1) * tick + tick + tick + (n - (p + 3)) * tick == n * tick;
    assert Total(e) - due == err - EPOCH * k + EPOCH * (a + b);
    AddPeriods(err - EPOCH * k, a + b);
  }

  lemma AddPeriods(x: int, q: int)
    ensures (x + EPOCH * q) % EPOCH == 0 <==> x % EPOCH == 0
  {
    var y := x + EPOCH * q;
    assert x == EPOCH * (x / EPOCH) + x % EPOCH && y == EPOCH * (y / EPOCH) + y % EPOCH;
    var d := y / EPOCH - x / EPOCH - q;
    assert x % EPOCH - y % EPOCH == EPOCH * d;
  }

  // ---- Spaced pulses

  function RunAll(s: Regs, segments: seq<seq<Inputs>>): Regs
    decreases |segments|
  {
    if segments == [] then s else Run(RunAll(s, segments[..|segments| - 1]), segments[|segments| - 1])
  }

  /** Pulses at least fourteen cycles apart, each with its own stable offset. */
  predicate Spaced(segments: seq<seq<Inputs>>, tick: int) {
    forall k | 0 <= k < |segments| ::
      |segments[k]| >= 14 && StablePulse(segments[k], tick, segments[k][0].nsOffset, segments[k][0].scOffset)
  }

  lemma {:induction false} SpacedSettles(s: Regs, segments: seq<seq<Inputs>>, tick: int)
    requires Steady(s) && Idle(s) && s.tickD1 == tick && Spaced(segments, tick)
    ensures var e := RunAll(s, segments); Steady(e) && Idle(e) && e.tickD1 == tick
    decreases |segments|
  {
    if segments != [] {
      hide Steady, Idle, Phase, StablePulse, StepsOnce, SameTime, StepHolds, Total, Next, Run;
      var m := |segments| - 1;
      var last := segments[m];
      SpacedSettles(s, segments[..m], tick);
      var b := RunAll(s, segments[..m]);
      StablePulseSteps(last, tick);
      PhaseAtMostFour(b, last[0]);
      PulseStepsClockIff(b, last, tick, last[0].nsOffset, last[0].scOffset);
    }
  }

  /** However many spaced pulses came before, the next finds the clock steady and idle and yields one adjust cycle. */
  lemma SpacedPulses(s: Regs, segments: seq<seq<Inputs>>, tick: int, k: nat, n: nat)
    requires Steady(s) && Idle(s) && s.tickD1 == tick && Spaced(segments, tick)
    requires k < |segments| && n <= |segments[k]|
    ensures var b := RunAll(s, segments[..k]);
      && Steady(b) && Idle(b) && b.tickD1 == tick
      && (Run(b, segments[k][..n]).adjust <==> n == Phase(b, segments[k][0]) + 1)
  {
    hide Steady, Idle, Phase, StablePulse, StepsOnce, Run, RunAll;
    SpacedSettles(s, segments[..k], tick);
    StablePulseSteps(segments[k], tick);
    OneAdjust(RunAll(s, segments[..k]), segments[k], n);
  }

  lemma StablePulseSteps(ins: seq<Inputs>, tick: int)
    requires ins != [] && StablePulse(ins, tick, ins[0].nsOffset, ins[0].scOffset)
    ensures StepsOnce(ins)
  {}

  lemma PhaseAtMostFour(s: Regs, i: Inputs)
    ensures Phase(s, i) <= 4
  {}

  lemma OneAdjust(s: Regs, ins: seq<Inputs>, n: nat)
    requires Steady(s) && Idle(s) && StepsOnce(ins) && n <= |ins|
    ensures Run(s, ins[..n]).adjust <==> n == Phase(s, ins[0]) + 1
  {
    ExactlyOneAdjust(s, ins, n);
  }

  // ---- Runs from reset for which the guard is not enough

  const TICK := 429_496_730                      // 6.4 ns

  function Plain(valid: bool, nsOffset: int): Inputs {
    Inputs(TICK, nsOffset, 0, valid, false)
  }

  /** Sets the clock from zero to shortly before the end of its first second. */
  const NEAR_END := 999_999_980

  lemma NearSecondEnd(nsOffset: int)
    requires -NS_PER_SECOND < nsOffset < NS_PER_SECOND && nsOffset >= 0
    ensures Run(RESET, [Plain(true, NEAR_END), Plain(false, nsOffset), Plain(false, nsOffset)])
         == Regs(NEAR_END * ONE_NS + 2 * TICK, 0, TICK, NEAR_END * ONE_NS + 3 * TICK, 19 + nsOffset, 0,
                 false, false, false, false, false)
  {
    hide Next;
    var i0, i := Plain(true, NEAR_END), Plain(false, nsOffset);
    FirstCycle();
    SecondCycle(nsOffset);
    ThirdCycle(nsOffset);
    ThreeCycles(RESET, i0, i, i);
  }

  lemma FirstCycle()
    ensures Next(RESET, Plain(true, NEAR_END)) == Regs(TICK, 0, TICK, 2 * TICK, NEAR_END, 0, false, false, false, false, true)
  {}

  lemma SecondCycle(nsOffset: nat)
    requires nsOffset < NS_PER_SECOND
    ensures Next(Regs(TICK, 0, TICK, 2 * TICK, NEAR_END, 0, false, false, false, false, true), Plain(false, nsOffset))
         == Regs(NEAR_END * ONE_NS + TICK, 0, TICK, 3 * TICK, 12 + nsOffset, 0, false, false, false, false, false)
  {
    assert Whole(2 * TICK) == 12 && Signed33(NEAR_END) == NEAR_END && FixedPoint(NEAR_END) == NEAR_END * ONE_NS;
  }

  lemma ThirdCycle(nsOffset: nat)
    requires nsOffset < NS_PER_SECOND
    ensures Next(Regs(NEAR_END * ONE_NS + TICK, 0, TICK, 3 * TICK, 12 + nsOffset, 0, false, false, false, false, false),
                 Plain(false, nsOffset))
         == Regs(NEAR_END * ONE_NS + 2 * TICK, 0, TICK, NEAR_END * ONE_NS + 3 * TICK, 19 + nsOffset, 0,
                 false, false, false, false, false)
  {
    assert Whole(3 * TICK) == 19;
  }

  lemma ThreeCycles(s: Regs, a: Inputs, b: Inputs, c: Inputs)
    ensures Run(s, [a, b, c]) == Next(Next(Next(s, a), b), c)
  {
    hide Next;
    assert [a, b, c][..2] == [a, b] && [a, b][..1] == [a] && [a][..0] == [];
    assert Run(s, []) == s && Run(s, [a]) == Next(s, a) && Run(s, [a, b]) == Next(Next(s, a), b);
  }

  /** Two cycles after reset, stepping back by 10 ns: the borrow is taken although nothing is borrowed. */
  lemma BorrowTooEarly()
    ensures var s2 := Run(RESET, [Plain(false, -10), Plain(true, -10)]);
      s2.adjust && !SameTime(Total(Next(s2, Plain(false, -10))), Adjusted(s2, Plain(false, -10), -10))
  {
    var i0, i1 := Plain(false, -10), Plain(true, -10);
    var s1 := Next(RESET, i0);
    assert s1 == Regs(TICK, 0, TICK, 2 * TICK, -10, 0, false, false, false, false, false);
    var s2 := Next(s1, i1);
    assert s2.tmpNs == 2 && s2.adjust;
    assert [i0, i1][..1] == [i0] && [i0][..0] == [];
    AdjustIsExactIff(s1, i1, i0);
  }

  /** A clock set to the end of a second, then stepped forward by 1000 ns in its last nanoseconds: the step is undone. */
  lemma StepUndone()
    ensures var i := Plain(false, 1000);
      var s4 := Run(RESET, [Plain(true, NEAR_END), i, i] + [Plain(true, 1000)]); var s5 := Next(s4, i);
      s4.adjust && !SameTime(Total(Next(s5, i)), Total(s5) + TICK)
  {
    var i, j := Plain(false, 1000), Plain(true, 1000);
    var ins := [Plain(true, NEAR_END), i, i];
    NearSecondEnd(1000);
    var s3 := Run(RESET, ins);
    assert (ins + [j])[..3] == ins;
    var s4 := Next(s3, j);
    assert s4.adjust && s4.ns == NEAR_END * ONE_NS + 3 * TICK && Leaving(s4, i);
    AdjustSurvivesIff(s3, j, i, i);
  }

  /** A clock cleared in the cycle in which it leaves its second restarts at one second and the time it had left over. */
  lemma ClearKeepsWrap()
    ensures var i := Plain(false, 0); var clearing := i.(clear := true);
      var s := Run(RESET, [Plain(true, NEAR_END), i, i] + [i]);
      Total(Next(s, clearing)) == 0 && Total(Next(Next(s, clearing), i)) > SECOND
  {
    var i := Plain(false, 0);
    var ins := [Plain(true, NEAR_END), i, i];
    NearSecondEnd(0);
    assert (ins + [i])[..3] == ins;
    var s := Next(Run(RESET, ins), i);
    assert s.ns == NEAR_END * ONE_NS + 3 * TICK && s.sc == 0 && !s.wrap;
    var n := Next(s, i.(clear := true));
    assert n.ns == 0 && n.sc == 0 && n.wrap && n.contrled == s.ns + 2 * TICK;
    assert Next(n, i).sc == 1;
  }
}
