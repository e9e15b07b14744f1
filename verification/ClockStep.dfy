/** From a Sync to the time of the counter: the servo's command, the two registers, the pulse. */
module ClockStep {
  import opened TimeArith
  import opened DataSets
  import Rtc
  import Servo

  /** What setRtcValue writes for a command: nanoseconds as they are, seconds through two registers; then the pulse. */
  predicate Written(t: Time, ins: seq<Rtc.Inputs>, tick: int) {
    Rtc.StablePulse(ins, tick, t.nanoseconds, Rtc.SecondsField(t.seconds))
  }

  lemma MovedIs(t: Time, total: int, due: int)
    requires Rtc.SameTime(total, due + Nanos(t) * Rtc.ONE_NS)
    ensures Rtc.SameTime(total, due + Rtc.SecondsField(t.seconds) * Rtc.SECOND + t.nanoseconds * Rtc.ONE_NS)
  {
    var k := Rtc.SecondsFieldIsCongruent(t.seconds);
    hide Rtc.SecondsField;
    assert due + Nanos(t) * Rtc.ONE_NS
        == due + Rtc.SecondsField(t.seconds) * Rtc.SECOND + t.nanoseconds * Rtc.ONE_NS + Rtc.EPOCH * (-k);
    Rtc.SameTimeShift(total, due + Rtc.SecondsField(t.seconds) * Rtc.SECOND + t.nanoseconds * Rtc.ONE_NS, -k);
  }

  lemma MovedBack(t: Time, total: int, due: int)
    requires Rtc.SameTime(total, due + Rtc.SecondsField(t.seconds) * Rtc.SECOND + t.nanoseconds * Rtc.ONE_NS)
    ensures Rtc.SameTime(total, due + Nanos(t) * Rtc.ONE_NS)
  {
    var k := Rtc.SecondsFieldIsCongruent(t.seconds);
    hide Rtc.SecondsField;
    assert due + Rtc.SecondsField(t.seconds) * Rtc.SECOND + t.nanoseconds * Rtc.ONE_NS
        == due + Nanos(t) * Rtc.ONE_NS + Rtc.EPOCH * k;
    Rtc.SameTimeShift(total, due + Nanos(t) * Rtc.ONE_NS, k);
  }

  predicate Ready(s: Rtc.Regs, ins: seq<Rtc.Inputs>, tick: int) {
    Rtc.Steady(s) && Rtc.Idle(s) && s.tickD1 == tick && ins != [] && |ins| >= Rtc.Phase(s, ins[0]) + 3
  }

  /** These cycles move the counter by ns nanoseconds beside its ticks, less the fraction dropped in the adjust cycle. */
  predicate Moved(s: Rtc.Regs, ins: seq<Rtc.Inputs>, tick: int, ns: int)
    requires Ready(s, ins, tick)
  {
    var s2 := Rtc.Run(s, ins[..Rtc.Phase(s, ins[0]) + 1]);
    Rtc.SameTime(Rtc.Total(Rtc.Run(s, ins)), Rtc.Total(s) + |ins| * tick - s2.ns % Rtc.ONE_NS + ns * Rtc.ONE_NS)
  }

  /** The exact condition of the counter, at the cycle before its adjust and in it. */
  predicate StepHolds(s: Rtc.Regs, ins: seq<Rtc.Inputs>, tick: int, nsOffset: int)
    requires Ready(s, ins, tick)
  {
    var p := Rtc.Phase(s, ins[0]);
    Rtc.StepHolds(Rtc.Run(s, ins[..p]), Rtc.Run(s, ins[..p + 1]), ins[p + 1], nsOffset)
  }

  /** Writing a command moves a steady counter by it, less a dropped fraction, if and only if the step holds. */
  lemma CommandMovesIff(t: Time, s: Rtc.Regs, ins: seq<Rtc.Inputs>, tick: int)
    requires Ready(s, ins, tick) && Written(t, ins, tick)
    ensures Moved(s, ins, tick, Nanos(t)) <==> StepHolds(s, ins, tick, t.nanoseconds)
  {
    hide Rtc.Steady, Rtc.Idle, Rtc.Phase, Rtc.StablePulse, Rtc.Run, Rtc.SameTime, Rtc.StepHolds, Rtc.SecondsField, Nanos;
    Rtc.PulseStepsClockIff(s, ins, tick, t.nanoseconds, Rtc.SecondsField(t.seconds));
    var p := Rtc.Phase(s, ins[0]);
    var due := Rtc.Total(s) + |ins| * tick - Rtc.Run(s, ins[..p + 1]).ns % Rtc.ONE_NS;
    var total := Rtc.Total(Rtc.Run(s, ins));
    if Rtc.SameTime(total, due + Nanos(t) * Rtc.ONE_NS) {
      MovedIs(t, total, due);
    }
    if Rtc.SameTime(total, due + Rtc.SecondsField(t.seconds) * Rtc.SECOND + t.nanoseconds * Rtc.ONE_NS) {
      MovedBack(t, total, due);
    }
  }

  /** An initialisation clears the counter and then moves it by the time of the operating system, in TAI if that is known. */
  lemma InitialisationSetsTimeIff(st: Servo.State, o: Servo.Options, osTime: Time, utcValid: bool, utcOffset: int,
                                  s: Rtc.Regs, ins: seq<Rtc.Inputs>, tick: int)
    requires Ready(s, ins, tick)
    ensures var t := Servo.PresetTime(osTime, utcValid, utcOffset);
      && Servo.Initialized(st, o, t).commands == st.commands + [Servo.ClearRtc] + [Servo.MoveRtc(t)]
      && (Written(t, ins, tick) ==>
            (Moved(s, ins, tick, Nanos(osTime) + if utcValid then utcOffset * BILLION else 0)
             <==> StepHolds(s, ins, tick, osTime.nanoseconds)))
  {
    hide Ready, Moved, StepHolds, Written;
    var t := Servo.PresetTime(osTime, utcValid, utcOffset);
    assert Nanos(t) == Nanos(osTime) + if utcValid then utcOffset * BILLION else 0;
    if Written(t, ins, tick) {
      CommandMovesIff(t, s, ins, tick);
    }
  }

  /** The step commanded last, if the last command is one. */
  function LastStep(commands: seq<Servo.RtcCommand>): Option<Time> {
    if commands != [] && commands[|commands| - 1].MoveRtc? then Some(commands[|commands| - 1].offset) else None
  }

  /** What a Sync makes the servo command. */
  function StepAfterSync(st: Servo.State, o: Servo.Options, send: Time, recv: Time, correction: Time): Option<Time>
    requires Servo.ValidState(st)
  {
    LastStep(Servo.ClockUpdated(Servo.OffsetUpdated(st, o, send, recv, correction), o).commands)
  }

  /**
   * A Sync that shows an offset beyond the limit: the command it leads to takes exactly that offset off a steady counter,
   * less a dropped fraction of a nanosecond, if and only if the step holds.
   */
  lemma SyncMovesCounterIff(st: Servo.State, o: Servo.Options, send: Time, recv: Time, correction: Time, ms: int, ahead: int,
                            s: Rtc.Regs, ins: seq<Rtc.Inputs>, tick: int)
    requires Servo.ValidState(st) && Nanos(recv) == Nanos(send) + ms + Nanos(correction) + ahead
    requires st.current && o.mechanism == Servo.Disabled ==> Canonical(st.offset)
    requires var shown := Servo.ShownOffset(st, o, ms, ahead);
      Servo.Beyond(shown, o.maxDelay) && !(o.maxReset != 0 && Servo.Beyond(shown, o.maxReset))
    requires !o.noAdjust && !o.noResetClock && Ready(s, ins, tick)
    ensures match StepAfterSync(st, o, send, recv, correction)
      case None => false
      case Some(t) => Written(t, ins, tick) ==>
        (Moved(s, ins, tick, -Servo.ShownOffset(st, o, ms, ahead)) <==> StepHolds(s, ins, tick, t.nanoseconds))
  {
    hide Ready, Moved, StepHolds, Written;
    hide Servo.OffsetUpdated, Servo.ClockUpdated, Servo.ShownOffset, Servo.Beyond, Nanos, Servo.ValidState;
    Servo.SyncStepsClock(st, o, send, recv, correction, ms, ahead);
    var c := Servo.ClockUpdated(Servo.OffsetUpdated(st, o, send, recv, correction), o).commands;
    var t := c[|c| - 1].offset;
    if Written(t, ins, tick) {
      CommandMovesIff(t, s, ins, tick);
      assert Nanos(t) == -Servo.ShownOffset(st, o, ms, ahead);
    }
  }
}
