/** The interval timers of esl/sw/dep/ptp_timer.cpp, driven by a counter that an interrupt increments. */
module Timers {
  const TIMER_ARRAY_SIZE := 7
  const PDELAYREQ_INTERVAL := 0
  const DELAYREQ_INTERVAL := 1
  const SYNC_INTERVAL := 2
  const ANNOUNCE_RECEIPT := 3
  const ANNOUNCE_INTERVAL := 4
  const OPERATOR_MESSAGES := 5

  /** interval == 0 means stopped. */
  datatype IntervalTimer = IntervalTimer(interval: int, left: int, expire: bool)

  /** The unread interrupt count and the timers. */
  datatype Bank = Bank(elapsed: nat, timers: seq<IntervalTimer>)

  predicate ValidBank(b: Bank) {
    && |b.timers| == TIMER_ARRAY_SIZE
    && forall i :: 0 <= i < TIMER_ARRAY_SIZE ==> Sound(b.timers[i])
  }

  /** An armed timer has between one tick and its whole interval to go. */
  predicate Sound(t: IntervalTimer) {
    t.interval >= 0 && (t.interval > 0 ==> 0 < t.left <= t.interval)
  }

  predicate Armed(b: Bank, i: nat) {
    i < |b.timers| && b.timers[i].interval > 0
  }

  /** The ticks of a timer's interval; zero if it is stopped. */
  function IntervalOf(b: Bank, i: nat): int { if i < |b.timers| then b.timers[i].interval else 0 }

  function AtLeastOne(ticks: nat): nat { if ticks == 0 then 1 else ticks }

  /** What delta ticks do to one timer: at most one expiry, and the next interval starts afresh. */
  function Ticked(t: IntervalTimer, delta: int): IntervalTimer {
    if t.interval <= 0 then t
    else if t.left - delta <= 0 then IntervalTimer(t.interval, t.interval, true)
    else t.(left := t.left - delta)
  }

  function Alarm(b: Bank): Bank { b.(elapsed := b.elapsed + 1) }

  function Updated(b: Bank): (r: Bank)
    ensures |r.timers| == |b.timers| && r.elapsed == 0
    ensures forall i :: 0 <= i < |b.timers| ==>
      r.timers[i] == if b.elapsed == 0 then b.timers[i] else Ticked(b.timers[i], b.elapsed)
  {
    if b.elapsed == 0 then b
    else Bank(0, seq(|b.timers|, i requires 0 <= i < |b.timers| => Ticked(b.timers[i], b.elapsed)))
  }

  function Stopped(b: Bank, i: nat): Bank {
    if i >= |b.timers| then b else b.(timers := b.timers[i := b.timers[i].(interval := 0)])
  }

  function Started(b: Bank, i: nat, ticks: nat): Bank {
    if i >= |b.timers| then b
    else
      var left := if ticks == 0 then 1 else ticks;
      b.(timers := b.timers[i := IntervalTimer(left, left, false)])
  }

  /** timerExpired: the new timers and whether an expiry of timer i was latched. */
  function Polled(b: Bank, i: nat): (Bank, bool) {
    var u := Updated(b);
    if i >= |u.timers| || !u.timers[i].expire then (u, false)
    else (u.(timers := u.timers[i := u.timers[i].(expire := false)]), true)
  }

  // ---- The module's own operations

  class PtpTimer {
    var elapsed: nat
    const itimer: array<IntervalTimer>

    function Contents(): Bank
      reads this, itimer
    {
      Bank(elapsed, itimer[..])
    }

    constructor ()
      ensures Contents() == Bank(0, seq(TIMER_ARRAY_SIZE, i => IntervalTimer(0, 0, false))) && fresh(itimer)
    {
      elapsed := 0;
      itimer := new IntervalTimer[TIMER_ARRAY_SIZE](i => IntervalTimer(0, 0, false));
    }

    method CatchAlarm()
      modifies this
      ensures Contents() == Alarm(old(Contents()))
    {
      elapsed := elapsed + 1;
    }

    /** The interrupts that arrive between the two statements are cleared with the counter. */
    method TimerUpdate(between: nat)
      modifies this, itimer
      ensures Contents() == Updated(old(Contents()))
    {
      var delta := elapsed;
      Interrupts(between);
      elapsed := 0;
      if delta <= 0 {
        return;
      }
      var i := 0;
      while i < itimer.Length
        invariant 0 <= i <= itimer.Length && elapsed == 0
        invariant forall k :: 0 <= k < i ==> itimer[k] == Ticked(old(itimer[k]), delta)
        invariant forall k :: i <= k < itimer.Length ==> itimer[k] == old(itimer[k])
      {
        if itimer[i].interval > 0 {
          itimer[i] := itimer[i].(left := itimer[i].left - delta);
          if itimer[i].left <= 0 {
            itimer[i] := itimer[i].(left := itimer[i].interval);
            itimer[i] := itimer[i].(expire := true);
          }
        }
        i := i + 1;
      }
    }

    method Interrupts(n: nat)
      modifies this
      ensures elapsed == old(elapsed) + n
    {
      for i := 0 to n
        invariant elapsed == old(elapsed) + i
      {
        CatchAlarm();
      }
    }

    method TimerStop(index: nat)
      modifies itimer
      ensures Contents() == Stopped(old(Contents()), index)
    {
      if index >= itimer.Length {
        return;
      }
      itimer[index] := itimer[index].(interval := 0);
    }

    method TimerStart(index: nat, ticks: nat)
      modifies itimer
      ensures Contents() == Started(old(Contents()), index, ticks)
    {
      if index >= itimer.Length {
        return;
      }
      itimer[index] := itimer[index].(expire := false);
      itimer[index] := itimer[index].(left := ticks);
      if itimer[index].left == 0 {
        itimer[index] := itimer[index].(left := 1);
      }
      itimer[index] := itimer[index].(interval := itimer[index].left);
    }

    method TimerExpired(index: nat, between: nat) returns (expired: bool)
      modifies this, itimer
      ensures (Contents(), expired) == Polled(old(Contents()), index)
    {
      TimerUpdate(between);
      if index >= itimer.Length {
        return false;
      }
      if !itimer[index].expire {
        return false;
      }
      itimer[index] := itimer[index].(expire := false);
      expired := true;
    }
  }

  // ---- Runs

  /** A poll reads the counter and then clears it; between the two, further interrupts may arrive. */
  datatype Op = Tick | Stop(i: nat) | Start(i: nat, ticks: nat) | Poll(i: nat, between: nat)

  predicate Polls(op: Op, i: nat) { op.Poll? && op.i == i }

  function Apply(b: Bank, op: Op): Bank {
    match op {
      case Tick => Alarm(b)
      case Stop(i) => Stopped(b, i)
      case Start(i, ticks) => Started(b, i, ticks)
      case Poll(i, between) => Polled(b, i).0
    }
  }

  function Run(b: Bank, ops: seq<Op>): Bank
    decreases |ops|
  {
    if ops == [] then b else Run(Apply(b, ops[0]), ops[1..])
  }

  lemma ApplyIsSound(b: Bank, op: Op)
    requires ValidBank(b)
    ensures ValidBank(Apply(b, op))
  {}

  lemma {:induction false} RunIsSound(b: Bank, ops: seq<Op>)
    requires ValidBank(b)
    ensures ValidBank(Run(b, ops))
    decreases |ops|
  {
    if ops != [] {
      ApplyIsSound(b, ops[0]);
      RunIsSound(Apply(b, ops[0]), ops[1..]);
    }
  }

  /** A latched expiry outlives every operation except its own poll and its own restart; stopping does not clear it. */
  lemma LatchSurvives(b: Bank, op: Op, i: nat)
    requires i < |b.timers| && b.timers[i].expire
    ensures Apply(b, op).timers[i].expire <==> !Polls(op, i) && !(op.Start? && op.i == i)
    ensures Polls(op, i) ==> Polled(b, i).1
  {}

  /** So a stopped timer reports an expiry exactly if one was latched before it was stopped. */
  lemma StoppedTimerExpiresIff(b: Bank, i: nat)
    requires i < |b.timers|
    ensures Polled(Stopped(b, i), i).1 <==> b.timers[i].expire
  {}

  /** All interrupts of a run, and those of them that fall between reading and clearing. */
  function Alarms(ops: seq<Op>): nat {
    if ops == [] then 0
    else (match ops[0] { case Tick => 1 case Poll(_, between) => between case _ => 0 }) + Alarms(ops[1..])
  }

  function Between(ops: seq<Op>): nat {
    if ops == [] then 0 else (if ops[0].Poll? then ops[0].between else 0) + Between(ops[1..])
  }

  /** The ticks that the polls of a run hand to the timers. */
  function Consumed(b: Bank, ops: seq<Op>): nat
    decreases |ops|
  {
    if ops == [] then 0
    else (if ops[0].Poll? then b.elapsed else 0) + Consumed(Apply(b, ops[0]), ops[1..])
  }

  /** Under every interleaving the ticks lost are exactly those that fall between reading and clearing the counter. */
  lemma {:induction false} TicksAreConserved(b: Bank, ops: seq<Op>)
    ensures b.elapsed + Alarms(ops) == Consumed(b, ops) + Run(b, ops).elapsed + Between(ops)
    decreases |ops|
  {
    if ops != [] {
      TicksAreConserved(Apply(b, ops[0]), ops[1..]);
    }
  }

  /** How often polls of timer i report an expiry. */
  function Expiries(b: Bank, ops: seq<Op>, i: nat): nat
    decreases |ops|
  {
    if ops == [] then 0
    else (if Polls(ops[0], i) && Polled(b, i).1 then 1 else 0) + Expiries(Apply(b, ops[0]), ops[1..], i)
  }

  predicate Untouched(ops: seq<Op>, i: nat) {
    forall k :: 0 <= k < |ops| ==> ops[k] != Stop(i) && !(ops[k].Start? && ops[k].i == i)
  }

  /** Expiries latched but not reported, and the progress into the current interval, in ticks. */
  function Credit(t: IntervalTimer): int {
    (if t.expire then t.interval else 0) + t.interval - t.left
  }

  lemma StepCredit(b: Bank, op: Op, i: nat)
    requires ValidBank(b) && Armed(b, i) && op != Stop(i) && !(op.Start? && op.i == i)
    ensures var r := Apply(b, op);
      Armed(r, i) && r.timers[i].interval == b.timers[i].interval
      && (if Polls(op, i) && Polled(b, i).1 then b.timers[i].interval else 0) + Credit(r.timers[i])
         <= (if op.Poll? then b.elapsed else 0) + Credit(b.timers[i])
  {
    if op.Poll? {
      assert Updated(b).timers[i] == if b.elapsed == 0 then b.timers[i] else Ticked(b.timers[i], b.elapsed);
    }
  }

  lemma OneMore(e: int, n: int)
    ensures (1 + e) * n == n + e * n
  {}

  lemma {:induction false} CreditBound(b: Bank, ops: seq<Op>, i: nat)
    requires ValidBank(b) && Armed(b, i) && Untouched(ops, i)
    ensures Armed(Run(b, ops), i)
    ensures Expiries(b, ops, i) * b.timers[i].interval + Credit(Run(b, ops).timers[i])
         <= Consumed(b, ops) + Credit(b.timers[i])
    decreases |ops|
  {
    if ops != [] {
      hide Apply, Credit, ValidBank, Polled;
      var r := Apply(b, ops[0]);
      StepCredit(b, ops[0], i);
      ApplyIsSound(b, ops[0]);
      assert Untouched(ops[1..], i);
      CreditBound(r, ops[1..], i);
      OneMore(Expiries(r, ops[1..], i), b.timers[i].interval);
    }
  }

  /** From its start, a timer reports no more expiries than its interval allows, counting the ticks still unread then. */
  lemma ExpiriesAreRationed(b: Bank, i: nat, ticks: nat, ops: seq<Op>)
    requires ValidBank(b) && i < TIMER_ARRAY_SIZE && Untouched(ops, i)
    ensures Expiries(Started(b, i, ticks), ops, i) * (if ticks == 0 then 1 else ticks) <= b.elapsed + Alarms(ops)
  {
    var s := Started(b, i, ticks);
    ApplyIsSound(b, Start(i, ticks));
    CreditBound(s, ops, i);
    TicksAreConserved(s, ops);
    RunIsSound(s, ops);
    assert Sound(Run(s, ops).timers[i]);
  }

  /** An expiry once latched is reported or still latched at the end. */
  lemma {:induction false} LatchIsReported(b: Bank, ops: seq<Op>, i: nat)
    requires ValidBank(b) && i < TIMER_ARRAY_SIZE && b.timers[i].expire && Untouched(ops, i)
    ensures ValidBank(Run(b, ops)) && (Expiries(b, ops, i) > 0 || Run(b, ops).timers[i].expire)
    decreases |ops|
  {
    if ops != [] {
      hide Apply, Polled, ValidBank;
      LatchSurvives(b, ops[0], i) by { TimersOf(b); }
      ApplyIsSound(b, ops[0]);
      assert Untouched(ops[1..], i);
      if Polls(ops[0], i) {
        RunIsSound(Apply(b, ops[0]), ops[1..]);
      } else {
        LatchIsReported(Apply(b, ops[0]), ops[1..], i);
      }
    }
  }

  lemma TimersOf(b: Bank)
    requires ValidBank(b)
    ensures |b.timers| == TIMER_ARRAY_SIZE
  {}

  lemma StepCountsDown(b: Bank, op: Op, i: nat)
    requires ValidBank(b) && Armed(b, i) && i < TIMER_ARRAY_SIZE && !b.timers[i].expire
    requires op != Stop(i) && !(op.Start? && op.i == i)
    ensures var r := Apply(b, op);
      && ValidBank(r) && Armed(r, i)
      && ((Polls(op, i) && Polled(b, i).1) || r.timers[i].expire
          || (!r.timers[i].expire && r.timers[i].left == b.timers[i].left - if op.Poll? then b.elapsed else 0))
  {
    ApplyIsSound(b, op);
    if op.Poll? {
      assert Updated(b).timers[i] == if b.elapsed == 0 then b.timers[i] else Ticked(b.timers[i], b.elapsed);
    }
  }

  /** Until its first expiry an armed timer counts down by exactly the ticks that polls have read. */
  lemma {:induction false} CountsDown(b: Bank, ops: seq<Op>, i: nat)
    requires ValidBank(b) && Armed(b, i) && i < TIMER_ARRAY_SIZE && !b.timers[i].expire && Untouched(ops, i)
    ensures ValidBank(Run(b, ops))
    ensures Expiries(b, ops, i) > 0 || Run(b, ops).timers[i].expire
            || Run(b, ops).timers[i].left == b.timers[i].left - Consumed(b, ops)
    decreases |ops|
  {
    if ops != [] {
      hide Apply, Polled, ValidBank, Armed;
      var r := Apply(b, ops[0]);
      StepCountsDown(b, ops[0], i);
      assert Untouched(ops[1..], i);
      RunIsSound(r, ops[1..]);
      if !(Polls(ops[0], i) && Polled(b, i).1) {
        if r.timers[i].expire {
          LatchIsReported(r, ops[1..], i);
        } else {
          CountsDown(r, ops[1..], i);
        }
      }
    }
  }

  /** So no later than when polls have read a whole interval's worth of ticks it has expired. */
  lemma ExpiresInTime(b: Bank, i: nat, ticks: nat, ops: seq<Op>)
    requires ValidBank(b) && i < TIMER_ARRAY_SIZE && Untouched(ops, i)
    requires Consumed(Started(b, i, ticks), ops) >= AtLeastOne(ticks)
    ensures var s := Started(b, i, ticks);
      ValidBank(Run(s, ops)) && (Expiries(s, ops, i) > 0 || Run(s, ops).timers[i].expire)
  {
    var s := Started(b, i, ticks);
    ApplyIsSound(b, Start(i, ticks));
    CountsDown(s, ops, i);
    StaysArmed(s, ops, i);
    assert Sound(Run(s, ops).timers[i]);
  }

  lemma StaysArmed(b: Bank, ops: seq<Op>, i: nat)
    requires ValidBank(b) && Armed(b, i) && Untouched(ops, i)
    ensures Armed(Run(b, ops), i)
  {
    CreditBound(b, ops, i);
  }

  /** An expiry is latched, or an armed timer's time is up. */
  predicate Due(b: Bank, i: nat)
    requires i < |b.timers|
  {
    b.timers[i].expire || (Armed(b, i) && b.elapsed >= b.timers[i].left)
  }

  /** The other side: a poll reports an expiry exactly if one is due. */
  lemma ExpiryIsReported(b: Bank, i: nat)
    requires ValidBank(b) && i < TIMER_ARRAY_SIZE
    ensures Polled(b, i).1 <==> Due(b, i)
  {}
}
