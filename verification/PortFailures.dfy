/** Where the port state machine goes astray, and exactly when. */
module PortFailures {
  import opened Bits
  import opened TimeArith
  import opened DataSets
  import opened Timers
  import opened ForeignMasters
  import opened Port
  import opened PortInvariants
  import opened PortPairing
  import opened PortRuns
  import Bmc
  import Servo

  // ---- The slave's timers

  /** A bank as a poll finds it after further interrupts. */
  function Later(b: Bank, alarms: nat): Bank { b.(elapsed := b.elapsed + alarms) }

  lemma PollReports(p: Port, timer: nat, alarms: nat)
    requires ValidBank(p.bank) && timer < TIMER_ARRAY_SIZE
    ensures var (q, expired) := PollTimer(p, timer, alarms);
      && ValidBank(q.bank) && q == p.(bank := q.bank) && q.bank.elapsed == 0
      && (expired <==> Due(Later(p.bank, alarms), timer))
  {
    ApplyIsSound(Later(p.bank, alarms), Poll(timer, 0));
  }

  lemma RequestsKeepState(p: Port, c: Config, input: Input)
    requires input.delayReqSent && input.pdelayReqSent
    ensures IssueDelayReq(p, c, input).state == IssuePDelayReq(p, c, input).state == p.state
  {
    hide ToState, Sum, Started;
  }

  lemma TimeoutKeepsClock(p: Port, c: Config)
    ensures AnnounceTimeout(p, c).o == p.o && AnnounceTimeout(p, c).d == p.d
  {
    hide ToState, Bmc.BecomeMaster;
    var q := p.(table := Emptied(p.table));
    ToStateKeeps(q, c, Listening);
    ToStateKeeps(q.(sets := Bmc.BecomeMaster(p.d, p.o, p.sets)), c, Master);
  }

  /** When the requests can be sent, only the announce receipt timeout changes the state. */
  lemma SlaveTimersState(p: Port, c: Config, input: Input)
    requires ValidBank(p.bank) && input.delayReqSent && input.pdelayReqSent
    ensures SlaveTimers(p, c, input).state ==
      if !Due(Later(p.bank, input.alarms.0), ANNOUNCE_RECEIPT) then p.state
      else if SlaveOnlyClock(p) then Listening else Master
  {
    hide PollTimer, AnnounceTimeout, IssueDelayReq, IssuePDelayReq, Due, ValidBank;
    PollReports(p, ANNOUNCE_RECEIPT, input.alarms.0);
    var (p1, receipt) := PollTimer(p, ANNOUNCE_RECEIPT, input.alarms.0);
    TimeoutTable(p1, c);
    var p2 := if receipt then AnnounceTimeout(p1, c) else p1;
    PollKeepsState(p2, OPERATOR_MESSAGES, input.alarms.1);
    var p3 := PollTimer(p2, OPERATOR_MESSAGES, input.alarms.1).0;
    PollKeepsState(p3, DELAYREQ_INTERVAL, input.alarms.2);
    RequestsKeepState(PollTimer(p3, DELAYREQ_INTERVAL, input.alarms.2).0, c, input);
    PollKeepsState(p3, PDELAYREQ_INTERVAL, input.alarms.2);
    RequestsKeepState(PollTimer(p3, PDELAYREQ_INTERVAL, input.alarms.2).0, c, input);
  }

  lemma PollKeepsState(p: Port, timer: nat, alarms: nat)
    ensures var q := PollTimer(p, timer, alarms).0; q == p.(bank := q.bank)
  {
    hide Polled;
  }

  // ---- When it fails

  lemma FaultKeepsLatch(p: Port, c: Config)
    requires Timed(p, c)
    ensures var q := ToState(p, c, Faulty);
      q.state == Faulty && ValidBank(q.bank) && !Armed(q.bank, ANNOUNCE_RECEIPT)
      && q.bank.timers[ANNOUNCE_RECEIPT].expire == p.bank.timers[ANNOUNCE_RECEIPT].expire
  {
    FaultTimed(p, c);
    hide Armed;
    ProfileArms(p.bank, c, p.state, Probing(c, p.state, p.pair.waitingForFirstSync));
    var q := ToState(p, c, Faulty);
    ProfileArms(q.bank, c, q.state, Probing(c, q.state, q.pair.waitingForFirstSync));
  }

  /**
   * A receive error makes the port faulty, but in the same pass a receipt expiry latched earlier takes it straight on
   * to MASTER, or LISTENING if it is slave-only.
   */
  lemma LatchedReceiptLeavesFault(p: Port, c: Config, input: Input)
    requires Timed(p, c) && InBounds(p.table) && Expecting(p.state) && !p.recordUpdate
    requires input.received == ReceiveError && input.delayReqSent && input.pdelayReqSent
    ensures DoState(p, c, input).state ==
      if !p.bank.timers[ANNOUNCE_RECEIPT].expire then Faulty else if SlaveOnlyClock(p) then Listening else Master
  {
    hide ToState, SlaveTimers, Timed;
    FaultKeepsLatch(p, c);
    ToStateKeeps(p, c, Faulty);
    SlaveTimersState(ToState(p, c, Faulty), c, input);
  }

  /**
   * After a timeout with an update pending, and only then, a slave-only clock turns slave at once: it follows entry
   * zero of the table that the timeout has just emptied.
   */
  lemma TimeoutWithUpdateFollowsOldEntry(p: Port, c: Config)
    requires InBounds(p.table)
    ensures var q := AnnounceTimeout(p, c);
      && InBounds(q.table) && q.table.number == 0
      && (StateDecision(q, c).state == Slave <==> p.recordUpdate && p.o.slaveOnly)
      && (p.recordUpdate && p.o.slaveOnly ==> StateDecision(q, c).sets.parent.parent == p.table.entries[0].record.sender)
  {
    hide ToState, AnnounceTimeout, Bmc.Compare;
    TimeoutTable(p, c);
    TimeoutKeepsClock(p, c);
    var q := AnnounceTimeout(p, c);
    var (decided, sets, best) :=
      Bmc.Exec(q.state, q.d, q.o, RecordsOf(q.table), q.table.number, q.table.best, RecordsOf(q.table)[0], q.sets);
    ToStateKeeps(q.(recordUpdate := false, sets := sets, table := q.table.(best := best)), c, decided);
  }

  lemma PollLatches(p: Port, i: nat, timer: nat, alarms: nat)
    requires ValidBank(p.bank) && i < TIMER_ARRAY_SIZE && timer < TIMER_ARRAY_SIZE && i != timer
    ensures var q := PollTimer(p, timer, alarms).0;
      ValidBank(q.bank) && q.bank.elapsed == 0 && q.bank.timers[i].expire == Due(Later(p.bank, alarms), i)
      && Armed(q.bank, i) == Armed(p.bank, i)
  {
    ApplyIsSound(Later(p.bank, alarms), Poll(timer, 0));
  }

  lemma TakeoverStopsRequests(p: Port, c: Config)
    requires p.state == Slave && Timed(p, c) && c.mechanism == Servo.E2E && !SlaveOnlyClock(p)
    ensures var q := AnnounceTimeout(p, c);
      && q.state == Master && q.pair == p.pair && ValidBank(q.bank) && q.bank.elapsed == p.bank.elapsed
      && q.bank.timers[DELAYREQ_INTERVAL] == p.bank.timers[DELAYREQ_INTERVAL].(interval := 0)
      && !Armed(q.bank, DELAYREQ_INTERVAL)
  {
    TimeoutTimed(p, c);
    hide Bmc.BecomeMaster, Emptied;
  }

  lemma StoppedStaysLatched(p: Port, timer: nat, alarms: nat)
    requires ValidBank(p.bank) && !Armed(p.bank, DELAYREQ_INTERVAL)
    ensures var (q, expired) := PollTimer(p, timer, alarms);
      && ValidBank(q.bank) && !Armed(q.bank, DELAYREQ_INTERVAL)
      && (timer != DELAYREQ_INTERVAL ==> q.bank.timers[DELAYREQ_INTERVAL] == p.bank.timers[DELAYREQ_INTERVAL])
      && (timer == DELAYREQ_INTERVAL ==> expired == p.bank.timers[DELAYREQ_INTERVAL].expire)
  {
    ApplyIsSound(Later(p.bank, alarms), Poll(timer, 0));
  }

  lemma RequestArmsTimer(p: Port, c: Config, input: Input)
    requires ValidBank(p.bank) && input.delayReqSent
    ensures var q := IssueDelayReq(p, c, input);
      q.state == p.state && Armed(q.bank, DELAYREQ_INTERVAL)
      && q.pair.sentDelayReqSequenceId == NextId(p.pair.sentDelayReqSequenceId)
  {
    hide Sum, ToState;
  }

  /**
   * The Delay_Req timer is not tied to SLAVE: exactly when it and the receipt timer are both latched or due at the
   * first poll of a pass, the port becomes MASTER, still sends the Delay_Req, and leaves that timer running.
   */
  lemma LatchedRequestFollowsIntoMaster(p: Port, c: Config, input: Input)
    requires p.state == Slave && Timed(p, c) && c.mechanism == Servo.E2E && !SlaveOnlyClock(p)
    requires input.delayReqSent && input.pdelayReqSent
    ensures var q, b := SlaveTimers(p, c, input), Later(p.bank, input.alarms.0);
      && (q.state == Master && Armed(q.bank, DELAYREQ_INTERVAL)
          <==> Due(b, ANNOUNCE_RECEIPT) && Due(b, DELAYREQ_INTERVAL))
      && (q.state == Master ==>
            q.pair.sentDelayReqSequenceId ==
            if Due(b, DELAYREQ_INTERVAL) then NextId(p.pair.sentDelayReqSequenceId) else p.pair.sentDelayReqSequenceId)
  {
    SlaveTimersState(p, c, input);
    var b := Later(p.bank, input.alarms.0);
    if Due(b, ANNOUNCE_RECEIPT) {
      TakeoverRequests(p, c, input);
    }
  }

  lemma TakeoverRequests(p: Port, c: Config, input: Input)
    requires p.state == Slave && Timed(p, c) && c.mechanism == Servo.E2E && !SlaveOnlyClock(p) && input.delayReqSent
    requires Due(Later(p.bank, input.alarms.0), ANNOUNCE_RECEIPT)
    ensures var q, due := SlaveTimers(p, c, input), Due(Later(p.bank, input.alarms.0), DELAYREQ_INTERVAL);
      && Armed(q.bank, DELAYREQ_INTERVAL) == due
      && q.pair.sentDelayReqSequenceId ==
         if due then NextId(p.pair.sentDelayReqSequenceId) else p.pair.sentDelayReqSequenceId
  {
    hide AnnounceTimeout, PollTimer, Due, Armed;
    PollReports(p, ANNOUNCE_RECEIPT, input.alarms.0);
    PollLatches(p, DELAYREQ_INTERVAL, ANNOUNCE_RECEIPT, input.alarms.0);
    PollTimed(p, c, ANNOUNCE_RECEIPT, input.alarms.0);
    var p1 := PollTimer(p, ANNOUNCE_RECEIPT, input.alarms.0).0;
    TakeoverStopsRequests(p1, c);
    var p2 := AnnounceTimeout(p1, c);
    hide IssueDelayReq;
    PollKeepsState(p2, OPERATOR_MESSAGES, input.alarms.1);
    StoppedStaysLatched(p2, OPERATOR_MESSAGES, input.alarms.1);
    var p3 := PollTimer(p2, OPERATOR_MESSAGES, input.alarms.1).0;
    PollKeepsState(p3, DELAYREQ_INTERVAL, input.alarms.2);
    StoppedStaysLatched(p3, DELAYREQ_INTERVAL, input.alarms.2);
    RequestArmsTimer(PollTimer(p3, DELAYREQ_INTERVAL, input.alarms.2).0, c, input);
  }
}
