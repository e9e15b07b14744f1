/** Runs of the port from power-up that reach the states in which it fails. */
module PortPaths {
  import opened Bits
  import opened TimeArith
  import opened DataSets
  import opened Timers
  import opened ForeignMasters
  import opened Port
  import opened PortInvariants
  import opened PortPairing
  import opened PortRuns
  import opened PortFailures
  import opened PortTable
  import Bmc
  import Servo

  /** A pass in which everything can be sent, nothing arrives or is stamped, and no interrupt falls. */
  const QUIET := Input(true, Nothing, true, true, true, true, true, None, (0, 0, 0), 1)

  function Hearing(m: Message): Input { QUIET.(received := Got(m, false)) }

  // ---- Passes without interrupts

  /** No poll of a request or receipt timer would report anything. */
  predicate Calm(b: Bank) {
    && ValidBank(b) && b.elapsed == 0 && !b.timers[ANNOUNCE_RECEIPT].expire
    && !b.timers[DELAYREQ_INTERVAL].expire && !b.timers[PDELAYREQ_INTERVAL].expire
  }

  lemma CalmStop(b: Bank, i: nat)
    requires Calm(b) && i < TIMER_ARRAY_SIZE
    ensures Calm(Stopped(b, i))
  {}

  lemma CalmStart(b: Bank, i: nat, ticks: nat)
    requires Calm(b) && i < TIMER_ARRAY_SIZE
    ensures Calm(Started(b, i, ticks))
  {}

  lemma CalmLeave(p: Port, c: Config)
    requires Calm(p.bank)
    ensures Calm(Leave(p, c).bank)
  {
    hide Calm, Stopped;
    var b := p.bank;
    CalmStop(b, SYNC_INTERVAL);
    CalmStop(Stopped(b, SYNC_INTERVAL), ANNOUNCE_INTERVAL);
    CalmStop(Stopped(Stopped(b, SYNC_INTERVAL), ANNOUNCE_INTERVAL), PDELAYREQ_INTERVAL);
    CalmStop(b, ANNOUNCE_RECEIPT);
    CalmStop(Stopped(b, ANNOUNCE_RECEIPT), DELAYREQ_INTERVAL);
    CalmStop(Stopped(b, ANNOUNCE_RECEIPT), PDELAYREQ_INTERVAL);
    CalmStop(b, PDELAYREQ_INTERVAL);
    CalmStop(Stopped(b, PDELAYREQ_INTERVAL), ANNOUNCE_RECEIPT);
  }

  lemma CalmEnter(p: Port, c: Config, s: PortState)
    requires Calm(p.bank)
    ensures Calm(Enter(p, c, s).bank)
  {
    hide Calm, Stopped, Started;
    var b := p.bank;
    match s {
      case Listening =>
        CalmStop(b, SYNC_INTERVAL);
        var b1 := Stopped(b, SYNC_INTERVAL);
        CalmStop(b1, ANNOUNCE_INTERVAL);
        var b2 := Stopped(b1, ANNOUNCE_INTERVAL);
        CalmStop(b2, PDELAYREQ_INTERVAL);
        var b3 := Stopped(b2, PDELAYREQ_INTERVAL);
        CalmStop(b3, DELAYREQ_INTERVAL);
        CalmStart(Stopped(b3, DELAYREQ_INTERVAL), ANNOUNCE_RECEIPT, c.listeningTicks);
      case Master =>
        CalmStart(b, SYNC_INTERVAL, c.syncTicks);
        var b1 := Started(b, SYNC_INTERVAL, c.syncTicks);
        CalmStart(b1, ANNOUNCE_INTERVAL, c.announceTicks);
        CalmStart(Started(b1, ANNOUNCE_INTERVAL, c.announceTicks), PDELAYREQ_INTERVAL, c.pdelayTicks);
      case Passive =>
        CalmStart(b, PDELAYREQ_INTERVAL, c.pdelayTicks);
        CalmStart(Started(b, PDELAYREQ_INTERVAL, c.pdelayTicks), ANNOUNCE_RECEIPT, c.receiptTicks);
      case Slave =>
        CalmStart(b, OPERATOR_MESSAGES, c.operatorTicks);
        CalmStart(Started(b, OPERATOR_MESSAGES, c.operatorTicks), ANNOUNCE_RECEIPT, c.receiptTicks);
      case _ =>
    }
  }

  lemma CalmToState(p: Port, c: Config, s: PortState)
    requires Calm(p.bank)
    ensures Calm(ToState(p, c, s).bank)
  {
    hide Calm, Leave, Enter;
    CalmLeave(p, c);
    CalmEnter(Leave(p, c), c, s);
  }

  lemma CalmHandle(p: Port, c: Config, input: Input)
    requires Calm(p.bank) && InBounds(p.table)
    ensures Calm(Handle(p, c, input).bank)
  {
    hide Calm, ToState, Started, Added, Refreshed, Bmc.FollowRecord, Sum;
    CalmToState(p, c, Faulty);
    CalmStart(p.bank, ANNOUNCE_RECEIPT, c.receiptTicks);
    CalmStart(p.bank, DELAYREQ_INTERVAL, c.ticksOf(p.pair.logMinDelayReqInterval));
    CalmStart(p.bank, PDELAYREQ_INTERVAL, c.pdelayTicks);
  }

  lemma CalmDecision(p: Port, c: Config)
    requires Calm(p.bank) && InBounds(p.table)
    ensures Calm(StateDecision(p, c).bank)
  {
    hide Calm, ToState, Bmc.Exec, RecordsOf;
    if p.recordUpdate && Deciding(p.state) {
      var (decided, sets, best) :=
        Bmc.Exec(p.state, p.d, p.o, RecordsOf(p.table), p.table.number, p.table.best, RecordsOf(p.table)[0], p.sets);
      CalmToState(p.(recordUpdate := false, sets := sets, table := p.table.(best := best)), c, decided);
    }
  }

  lemma CalmPoll(p: Port, timer: nat)
    requires Calm(p.bank) && timer < TIMER_ARRAY_SIZE
    ensures var (q, expired) := PollTimer(p, timer, 0);
      && q == p.(bank := q.bank) && Calm(q.bank)
      && (forall i :: 0 <= i < TIMER_ARRAY_SIZE && i != timer ==> q.bank.timers[i] == p.bank.timers[i])
      && (timer == ANNOUNCE_RECEIPT || timer == DELAYREQ_INTERVAL || timer == PDELAYREQ_INTERVAL ==> !expired && q == p)
  {
    assert Later(p.bank, 0) == p.bank;
  }

  /** The same port, up to the timer for operator messages, and calm. */
  predicate Settled(q: Port, p: Port) {
    && q == p.(bank := q.bank) && Calm(q.bank) && |p.bank.timers| == TIMER_ARRAY_SIZE
    && forall i :: 0 <= i < TIMER_ARRAY_SIZE && i != OPERATOR_MESSAGES ==> q.bank.timers[i] == p.bank.timers[i]
  }

  lemma CalmSlaveTimers(p: Port, c: Config, input: Input)
    requires Calm(p.bank) && input.alarms == (0, 0, 0)
    ensures Settled(SlaveTimers(p, c, input), p)
  {
    hide PollTimer, AnnounceTimeout, IssueDelayReq, IssuePDelayReq;
    CalmPoll(p, ANNOUNCE_RECEIPT);
    CalmPoll(p, OPERATOR_MESSAGES);
    var p3 := PollTimer(p, OPERATOR_MESSAGES, 0).0;
    CalmPoll(p3, DELAYREQ_INTERVAL);
    CalmPoll(p3, PDELAYREQ_INTERVAL);
  }

  /** So such a pass of a port that is not master is its decision and what it does with the message. */
  lemma CalmPass(p: Port, c: Config, decided: Port, input: Input)
    requires Calm(p.bank) && InBounds(p.table) && input.alarms == (0, 0, 0) && p.state != Initializing
    requires decided == StateDecision(p, c) && InBounds(decided.table) && Expecting(decided.state)
    ensures Settled(Step(p, c, input), Handle(decided, c, input))
  {
    hide Calm, StateDecision, Handle, SlaveTimers, ToState, Settled;
    CalmDecision(p, c);
    CalmHandle(decided, c, input);
    CalmSlaveTimers(Handle(decided, c, input), c, input);
  }

  // ---- From power-up to SLAVE

  lemma InitPass(p: Port, c: Config)
    requires p.state == Initializing && Calm(p.bank.(elapsed := 0)) && InBounds(p.table)
    ensures var q := Step(p, c, QUIET);
      && q.state == Listening && Calm(q.bank) && (q.d, q.o) == Bmc.InitDefault(p.o, p.d.identity)
      && q.table == Reinitialized(p.table) && q.recordUpdate == p.recordUpdate && q.log == p.log + [ServoInit]
      && q.sets == Bmc.BecomeMaster(q.d, q.o, p.sets) && q.pair == p.pair.(logMinDelayReqInterval := c.initialDelayReq)
  {
    hide Bmc.BecomeMaster, Bmc.InitDefault, Stopped, Started, Calm;
    var (d, o) := Bmc.InitDefault(p.o, p.d.identity);
    CalmToState(p.(d := d, o := o, table := Reinitialized(p.table), bank := p.bank.(elapsed := 0),
                   log := p.log + [ServoInit], sets := Bmc.BecomeMaster(d, o, p.sets)), c, Listening);
  }

  lemma PoweredUpIsCalm(p: Port)
    requires PoweredUp(p)
    ensures Calm(p.bank.(elapsed := 0)) && Reinitialized(p.table) == p.table && InBounds(p.table)
  {}

  lemma ListeningHears(p: Port, c: Config, r: Record)
    requires p.state == Listening && InBounds(p.table) && r.sender != OwnPort(p, c)
    ensures Handle(p, c, Hearing(AnnounceMsg(r))) == p.(recordUpdate := true, table := Added(p.table, r), heard := p.heard + [Heard(r, true)])
  {
    hide Added;
  }

  /** What makes a port that has initialised follow the sender of its first Announce. */
  predicate Takes(d: DefaultDS, o: Bmc.Options, r: Record) {
    o.slaveOnly || (d.quality.clockClass >= 128 && Bmc.Compare(Bmc.OwnRecord(d, r), r, d.identity) > 0)
  }

  /** Such a port follows the only entry of its table. */
  lemma DecidesForOnly(p: Port, c: Config)
    requires p.recordUpdate && InBounds(p.table) && p.table.number == 1
    requires p.o.slaveOnly
             || (Takes(p.d, p.o, p.table.entries[0].record) && p.sets.parent.parent.clock == p.d.identity)
    requires p.state == Listening || p.state == Slave
    ensures var q := StateDecision(p, c);
      && q.state == Slave && !q.recordUpdate && q.table == p.table.(best := 0) && q.d == p.d && q.o == p.o
      && q.announced == p.announced && q.heard == p.heard && FromParent(q, p.table.entries[0].record.sender)
      && (p.state == Slave ==> q.bank == p.bank && q.log == p.log && q.pair == p.pair)
      && (p.state == Listening ==> q.log == p.log + [ServoInit] && q.pair == Restarted(p.pair))
  {
    hide Bmc.FollowRecord, Started, Stopped, Bmc.Compare, Bmc.OwnRecord, Bmc.BecomeMaster;
    FollowingNamesParent(p);
    var r := p.table.entries[0].record;
    Bmc.ExecIgnoresScratch(p.state, p.d, p.o, RecordsOf(p.table), p.table.number, p.table.best, RecordsOf(p.table)[0], r, p.sets);
  }

  lemma FollowingNamesParent(p: Port)
    requires InBounds(p.table) && p.table.number > 0
    ensures Bmc.FollowRecord(p.state, p.o, p.table.entries[0].record, p.sets).parent.parent == p.table.entries[0].record.sender
  {}

  /** A calm port that follows the only master it knows. */
  predicate FollowsOnly(q: Port, c: Config, master: PortIdentity) {
    && q.state == Slave && Calm(q.bank) && FromParent(q, master) && master != OwnPort(q, c)
    && InBounds(q.table) && q.table.number == 1 && q.table.best == 0 && q.table.entries[0].record.sender == master
  }

  lemma FirstEntry(t: Table, r: Record)
    requires InBounds(t) && t.number == t.best == t.slot == 0
    ensures Added(t, r) == Table(t.entries[0 := Foreign(r.sender, 0, r)], 1, 0, 1 % |t.entries|) && InBounds(Added(t, r))
  {}

  lemma OwnParent(d: DefaultDS, o: Bmc.Options, s: Sets)
    ensures Bmc.BecomeMaster(d, o, s).parent.parent.clock == d.identity
  {}

  lemma BecomesSlave(p: Port, c: Config, r: Record) returns (q: Port)
    requires PoweredUp(p) && r.sender != OwnPort(p, c)
    requires var (d, o) := Bmc.InitDefault(p.o, p.d.identity); Takes(d, o, r)
    ensures Reachable(p, c, q) && FollowsOnly(q, c, r.sender) && q.log == [ServoInit, ServoInit] && !q.recordUpdate
    ensures q.pair == Restarted(p.pair.(logMinDelayReqInterval := c.initialDelayReq))
    ensures q.table == Table(p.table.entries[0 := Foreign(r.sender, 0, r)], 1, 0, 1 % |p.table.entries|)
    ensures OwnPort(q, c) == OwnPort(p, c) && (q.d, q.o) == Bmc.InitDefault(p.o, p.d.identity)
  {
    hide Step, StateDecision, Reachable, Calm, Added, Restarted, Bmc.BecomeMaster, Takes, Armed;
    PoweredUpIsCalm(p);
    InitPass(p, c);
    ReachableFromStart(p, c);
    ReachableStep(p, c, p, QUIET);
    var q1 := Step(p, c, QUIET);
    OwnParent(q1.d, q1.o, p.sets);
    QuietDecision(q1, c);
    CalmPass(q1, c, q1, Hearing(AnnounceMsg(r)));
    ListeningHears(q1, c, r);
    FirstEntry(q1.table, r);
    ReachableStep(p, c, q1, Hearing(AnnounceMsg(r)));
    var q2 := Step(q1, c, Hearing(AnnounceMsg(r)));
    DecidesForOnly(q2, c);
    CalmPass(q2, c, StateDecision(q2, c), QUIET);
    ReachableStep(p, c, q2, QUIET);
    q := Step(q2, c, QUIET);
  }

  lemma QuietDecision(p: Port, c: Config)
    requires !p.recordUpdate && InBounds(p.table)
    ensures StateDecision(p, c) == p
  {}

  lemma KeepsOnly(q: Port, c: Config, master: PortIdentity)
    requires FollowsOnly(q, c, master) && q.o.slaveOnly
    ensures var d := StateDecision(q, c);
      d == q.(recordUpdate := false, sets := d.sets) && FollowsOnly(d, c, master)
  {
    hide StateDecision, Calm;
    if q.recordUpdate {
      DecidesForOnly(q, c);
    } else {
      QuietDecision(q, c);
    }
  }

  /** It hears a Sync of its master; with the first one its Delay_Req timer starts to run. */
  lemma SyncPass(q: Port, c: Config, h: Header, stamp: Time)
    requires FollowsOnly(q, c, h.sender) && !q.recordUpdate && h.twoStep
    ensures var s := Step(q, c, Hearing(SyncMsg(h, ZERO, stamp)));
      && FollowsOnly(s, c, h.sender) && s.table == q.table && !s.recordUpdate && s.d == q.d && s.o == q.o
      && (c.mechanism == Servo.E2E && q.pair.waitingForFirstSync ==> Armed(s.bank, DELAYREQ_INTERVAL))
      && s.log == q.log + [SyncHeard(h.sender, h.sequence, stamp, h.correction, true)]
      && s.pair == q.pair.(waitingForFirstSync := false, syncReceiveTime := stamp, waitingForFollow := true,
                           recvSyncSequenceId := h.sequence, lastSyncCorrection := h.correction)
  {
    hide Step, StateDecision, Calm, Started;
    QuietDecision(q, c);
    CalmPass(q, c, q, Hearing(SyncMsg(h, ZERO, stamp)));
    StartArms(q.bank, DELAYREQ_INTERVAL, c.ticksOf(q.pair.logMinDelayReqInterval));
    StaysArmed(Step(q, c, Hearing(SyncMsg(h, ZERO, stamp))), Handle(q, c, Hearing(SyncMsg(h, ZERO, stamp))));
  }

  lemma StaysArmed(q: Port, p: Port)
    requires Settled(q, p)
    ensures Armed(p.bank, DELAYREQ_INTERVAL) ==> Armed(q.bank, DELAYREQ_INTERVAL)
  {}

  lemma StartArms(b: Bank, i: nat, ticks: nat)
    requires Calm(b) && i < TIMER_ARRAY_SIZE
    ensures Armed(Started(b, i, ticks), i)
  {}

  // ---- Rounds of requests

  /** The request timer is up again, and only the receipt timer may have run out meanwhile. */
  predicate Requested(b: Bank) {
    && ValidBank(b) && b.elapsed == 0 && Armed(b, DELAYREQ_INTERVAL)
    && !b.timers[DELAYREQ_INTERVAL].expire && !b.timers[PDELAYREQ_INTERVAL].expire
  }

  lemma RequestTimerExpires(b: Bank, ticks: nat, again: nat)
    requires Calm(b) && Armed(b, DELAYREQ_INTERVAL) && !Armed(b, PDELAYREQ_INTERVAL)
    requires ticks == b.timers[DELAYREQ_INTERVAL].left
    ensures var (u, expired) := Polled(Later(b, ticks), DELAYREQ_INTERVAL);
      expired && Requested(Started(u, DELAYREQ_INTERVAL, again))
  {
    ApplyIsSound(Later(b, ticks), Poll(DELAYREQ_INTERVAL, 0));
  }

  lemma RequestIgnoresBank(p: Port, c: Config, b: Bank, input: Input)
    requires input.delayReqSent
    ensures IssueDelayReq(p.(bank := b), c, input)
         == IssueDelayReq(p, c, input).(bank := Started(b, DELAYREQ_INTERVAL, input.delayTicks))
  {
    hide Started, Sum, ToState;
  }

  /** A pass in which the Delay_Req timer runs out: the request goes out, and the timer starts again. */
  lemma RequestTimers(q: Port, c: Config, input: Input)
    requires q.state == Slave && Calm(q.bank) && Timed(q, c) && c.mechanism == Servo.E2E && Armed(q.bank, DELAYREQ_INTERVAL)
    requires input == QUIET.(txStamp := input.txStamp, alarms := (0, 0, q.bank.timers[DELAYREQ_INTERVAL].left))
    ensures var s := SlaveTimers(q, c, input);
      s == IssueDelayReq(q, c, input).(bank := s.bank) && Requested(s.bank)
  {
    hide IssueDelayReq, AnnounceTimeout, Calm, Polled, Requested, Started;
    CalmPoll(q, ANNOUNCE_RECEIPT);
    CalmPoll(q, OPERATOR_MESSAGES);
    var q1 := PollTimer(q, OPERATOR_MESSAGES, 0).0;
    CalmIsValid(q1.bank);
    RequestTimerExpires(q1.bank, input.alarms.2, input.delayTicks);
    var q2 := PollTimer(q1, DELAYREQ_INTERVAL, input.alarms.2).0;
    RequestIgnoresBank(q, c, q2.bank, input);
  }

  lemma CalmIsValid(b: Bank)
    requires Calm(b)
    ensures ValidBank(b)
  {}

  lemma ReceiptRestarts(b: Bank, ticks: nat)
    requires Requested(b)
    ensures Calm(Started(b, ANNOUNCE_RECEIPT, ticks)) && Armed(Started(b, ANNOUNCE_RECEIPT, ticks), DELAYREQ_INTERVAL)
  {}

  /** The master's next Announce then calms the port again. */
  lemma RefreshPass(t: Port, c: Config, r: Record)
    requires t.state == Slave && FromParent(t, r.sender) && r.sender != OwnPort(t, c) && Requested(t.bank)
    requires InBounds(t.table) && t.table.number == 1 && t.table.best == 0 && !t.recordUpdate
    ensures var s := Step(t, c, Hearing(AnnounceMsg(r)));
      && FollowsOnly(s, c, r.sender) && Armed(s.bank, DELAYREQ_INTERVAL) && s.log == t.log && s.pair == t.pair
      && s.d == t.d && s.o == t.o
  {
    hide Started, Calm, Settled, Requested;
    QuietDecision(t, c);
    var u := Handle(t, c, Hearing(AnnounceMsg(r)));
    hide StateDecision, ToState, SlaveTimers;
    ReceiptRestarts(t.bank, c.receiptTicks);
    CalmSlaveTimers(u, c, Hearing(AnnounceMsg(r)));
    StaysArmed(SlaveTimers(u, c, Hearing(AnnounceMsg(r))), u);
    SettledIs(SlaveTimers(u, c, Hearing(AnnounceMsg(r))), u);
  }

  lemma SettledIs(q: Port, p: Port)
    requires Settled(q, p)
    ensures q == p.(bank := q.bank) && Calm(q.bank)
  {}

  /** One round: the request, and the Announce. */
  lemma RequestRound(p: Port, c: Config, q: Port, r: Record, stamp: Option<Time>) returns (s: Port)
    requires PoweredUp(p) && Reachable(p, c, q) && FollowsOnly(q, c, r.sender) && q.o.slaveOnly
    requires c.mechanism == Servo.E2E && Armed(q.bank, DELAYREQ_INTERVAL)
    ensures Reachable(p, c, s) && FollowsOnly(s, c, r.sender) && Armed(s.bank, DELAYREQ_INTERVAL)
    ensures s.d == q.d && s.o == q.o
    ensures var requested := IssueDelayReq(q, c, QUIET.(txStamp := stamp));
      s.log == requested.log && s.pair == requested.pair
  {
    hide Step, StateDecision, Reachable, Calm, Timed, Requested, Started, Sum, ToState;
    KeepsOnly(q, c, r.sender);
    ReachableTimed(p, c, q);
    DecisionTimed(q, c);
    var d := StateDecision(q, c);
    CalmIsValid(d.bank);
    var input := QUIET.(txStamp := stamp, alarms := (0, 0, d.bank.timers[DELAYREQ_INTERVAL].left));
    RequestTimers(d, c, input);
    RequestStep(q, c, d, input);
    ReachableStep(p, c, q, input);
    var t := Step(q, c, input);
    RefreshPass(t, c, r);
    ReachableStep(p, c, t, Hearing(AnnounceMsg(r)));
    s := Step(t, c, Hearing(AnnounceMsg(r)));
  }

  lemma RequestStep(q: Port, c: Config, d: Port, input: Input)
    requires InBounds(q.table) && q.state == Slave && d == StateDecision(q, c) && d.state == Slave && input.received == Nothing
    ensures Step(q, c, input) == SlaveTimers(d, c, input)
  {
    hide SlaveTimers, StateDecision, ToState;
  }

  // ---- Failures of a slave

  /** A run in which the time of a first request is combined with the answer to a second, unstamped one. */
  lemma BlindRequestRun(p: Port, c: Config, r: Record, stamp: Time, h: Header, receipt: Time) returns (q: Port)
    requires PoweredUp(p) && p.o.slaveOnly && c.mechanism == Servo.E2E && r.sender != OwnPort(p, c)
    requires h.sender == r.sender && h.sequence == 1
    ensures Reachable(p, c, q)
    ensures var sent := Sum(stamp, c.outboundLatency);
      q.log == [ServoInit, ServoInit, SyncHeard(r.sender, 0, ZERO, ZERO, true), DelayRequested(0, sent),
                BlindDelayRequest(1), DelayUpdate(1, sent, receipt, h.correction)]
  {
    hide Step, Reachable, Calm, Started, Sum, ToState, StateDecision, Armed;
    var q1 := BecomesSlave(p, c, r);
    var sync := Header(r.sender, 0, ZERO, true, 0);
    SyncPass(q1, c, sync, ZERO);
    ReachableStep(p, c, q1, Hearing(SyncMsg(sync, ZERO, ZERO)));
    var q2 := Step(q1, c, Hearing(SyncMsg(sync, ZERO, ZERO)));
    var q3 := RequestRound(p, c, q2, r, Some(stamp));
    var q4 := RequestRound(p, c, q3, r, None);
    q := ResponsePass(p, c, q4, h, receipt);
  }

  lemma ResponsePass(p: Port, c: Config, q: Port, h: Header, receipt: Time) returns (s: Port)
    requires PoweredUp(p) && Reachable(p, c, q) && FollowsOnly(q, c, h.sender) && q.o.slaveOnly && c.mechanism == Servo.E2E
    requires q.pair.waitingForDelayResp && q.pair.sentDelayReqSequenceId - 1 == h.sequence
    ensures Reachable(p, c, s) && s.log == q.log + [DelayUpdate(h.sequence, q.pair.delayReqSendTime, receipt, h.correction)]
  {
    hide Step, Reachable, Calm, StateDecision;
    KeepsOnly(q, c, h.sender);
    var m := DelayRespMsg(h, OwnPort(q, c), receipt);
    CalmPass(q, c, StateDecision(q, c), Hearing(m));
    ReachableStep(p, c, q, Hearing(m));
    s := Step(q, c, Hearing(m));
  }

  /** Any number of rounds, until the counter wraps. */
  lemma {:induction false} RequestRounds(p: Port, c: Config, q: Port, r: Record, stamp: Option<Time>, n: nat) returns (s: Port)
    requires PoweredUp(p) && Reachable(p, c, q) && FollowsOnly(q, c, r.sender) && q.o.slaveOnly
    requires c.mechanism == Servo.E2E && Armed(q.bank, DELAYREQ_INTERVAL) && q.pair.sentDelayReqSequenceId + n <= 0xFFFF
    ensures Reachable(p, c, s) && FollowsOnly(s, c, r.sender) && Armed(s.bank, DELAYREQ_INTERVAL)
    ensures s.o == q.o && s.pair.sentDelayReqSequenceId == q.pair.sentDelayReqSequenceId + n
    decreases n
  {
    if n == 0 {
      s := q;
    } else {
      hide Reachable, FollowsOnly, Armed, PoweredUp, Sum, Started, ToState;
      var t := RequestRound(p, c, q, r, stamp);
      s := RequestRounds(p, c, t, r, stamp, n - 1);
    }
  }

  /** A run to a stamped request that is waited for, and that no response can answer: the 65536th. */
  lemma WrappedRequestRun(p: Port, c: Config, r: Record, stamp: Time) returns (q: Port)
    requires PoweredUp(p) && p.o.slaveOnly && c.mechanism == Servo.E2E && r.sender != OwnPort(p, c)
    ensures Reachable(p, c, q) && q.state == Slave && q.pair.waitingForDelayResp
    ensures q.log != [] && Last(q.log) == DelayRequested(0xFFFF, Sum(stamp, c.outboundLatency))
    ensures forall h: Header, receipt: Time :: h.sequence == 0xFFFF ==>
      HandleDelayResp(q, c, h, OwnPort(q, c), receipt) == q
  {
    hide Step, Reachable, Calm, Started, Sum, ToState, StateDecision, Armed;
    var q1 := BecomesSlave(p, c, r);
    var sync := Header(r.sender, 0, ZERO, true, 0);
    SyncPass(q1, c, sync, ZERO);
    ReachableStep(p, c, q1, Hearing(SyncMsg(sync, ZERO, ZERO)));
    var q2 := Step(q1, c, Hearing(SyncMsg(sync, ZERO, ZERO)));
    var q3 := RequestRounds(p, c, q2, r, Some(stamp), 0xFFFF);
    q := RequestRound(p, c, q3, r, Some(stamp));
  }

  /** The second entry of a table that has one. */
  lemma SecondEntry(t: Table, r: Record)
    requires InBounds(t) && t.number == 1 && t.best == 0 && t.slot == 1 % |t.entries| && |t.entries| >= 2
    requires t.entries[0].key != r.sender
    ensures var u := Added(t, r);
      InBounds(u) && u.number == 2 && u.best == 0 && u.entries[1].record == r && u.entries[0] == t.entries[0]
  {
    assert Search(t, r.sender, 0) == |t.entries|;
  }

  lemma OtherAnnouncePass(q: Port, c: Config, master: PortIdentity, r: Record)
    requires FollowsOnly(q, c, master) && !q.recordUpdate && r.sender != master && r.sender != OwnPort(q, c)
    ensures var s := Step(q, c, Hearing(AnnounceMsg(r)));
      s == q.(bank := s.bank, recordUpdate := true, table := Added(q.table, r), heard := q.heard + [Heard(r, true)]) && Calm(s.bank)
  {
    hide Step, StateDecision, Calm, Started, Added;
    QuietDecision(q, c);
    CalmPass(q, c, q, Hearing(AnnounceMsg(r)));
  }

  /** Of two entries a slave-only slave takes the second if it compares better. */
  lemma SecondIsBetter(q: Port, c: Config)
    requires q.state == Slave && q.o.slaveOnly && q.recordUpdate && InBounds(q.table) && q.table.number == 2
    requires Bmc.Compare(q.table.entries[1].record, q.table.entries[0].record, q.sets.parent.parent.clock) < 0
    ensures var d := StateDecision(q, c);
      && d == q.(recordUpdate := false, sets := d.sets, table := q.table.(best := 1))
      && FromParent(d, q.table.entries[1].record.sender)
  {
    hide Bmc.Compare;
    var rs := RecordsOf(q.table);
    assert Bmc.Best(rs, q.sets.parent.parent.clock, 1) == 0;
    assert Bmc.Best(rs, q.sets.parent.parent.clock, 2) == 1;
  }

  /** A run in which a Sync of one master is completed by the Follow_Up of another. */
  lemma MixedFollowUpRun(p: Port, c: Config, a: Record, b: Record, h: Header, stamp: Time, f: Header, origin: Time)
    returns (q: Port)
    requires PoweredUp(p) && p.o.slaveOnly && |p.table.entries| >= 2
    requires a.sender != OwnPort(p, c) && b.sender != OwnPort(p, c) && a.sender != b.sender
    requires Bmc.Compare(b, a, a.sender.clock) < 0
    requires h.sender == a.sender && h.twoStep && f.sender == b.sender && f.sequence == h.sequence
    ensures Reachable(p, c, q)
    ensures q.log == [ServoInit, ServoInit, SyncHeard(a.sender, h.sequence, stamp, h.correction, true),
                      OffsetUpdate(b.sender, h.sequence, origin, stamp, Sum(f.correction, h.correction), Some(f.correction))]
  {
    hide Step, Reachable, Calm, Sum, ToState, StateDecision, Armed, Added, Bmc.Compare;
    var q1 := BecomesSlave(p, c, a);
    SyncPass(q1, c, h, stamp);
    ReachableStep(p, c, q1, Hearing(SyncMsg(h, ZERO, stamp)));
    var q2 := Step(q1, c, Hearing(SyncMsg(h, ZERO, stamp)));
    OtherAnnouncePass(q2, c, a.sender, b);
    ReachableStep(p, c, q2, Hearing(AnnounceMsg(b)));
    var q3 := Step(q2, c, Hearing(AnnounceMsg(b)));
    SecondEntry(q2.table, b);
    SecondIsBetter(q3, c);
    FollowUpPass(q3, c, StateDecision(q3, c), f, origin);
    ReachableStep(p, c, q3, Hearing(FollowUpMsg(f, origin)));
    q := Step(q3, c, Hearing(FollowUpMsg(f, origin)));
  }

  lemma FollowUpPass(q: Port, c: Config, d: Port, f: Header, origin: Time)
    requires Calm(q.bank) && InBounds(q.table) && q.state == d.state == Slave && d == StateDecision(q, c) && InBounds(d.table)
    requires FromParent(d, f.sender) && f.sender != OwnPort(d, c)
    requires d.pair.waitingForFollow && d.pair.recvSyncSequenceId == f.sequence
    ensures Step(q, c, Hearing(FollowUpMsg(f, origin))).log ==
      d.log + [OffsetUpdate(f.sender, f.sequence, origin, d.pair.syncReceiveTime,
                            Sum(f.correction, d.pair.lastSyncCorrection), Some(f.correction))]
  {
    hide Step, StateDecision, Calm, Sum;
    CalmPass(q, c, d, Hearing(FollowUpMsg(f, origin)));
  }

  lemma FaultPass(q: Port, c: Config)
    requires q.state == Slave && Calm(q.bank) && !q.recordUpdate && InBounds(q.table)
    ensures var s := Step(q, c, QUIET.(received := ReceiveError));
      && s.state == Faulty && Calm(s.bank) && s.table == q.table && !s.recordUpdate && s.d == q.d && s.o == q.o
  {
    hide Step, StateDecision, Calm, ToState;
    QuietDecision(q, c);
    CalmPass(q, c, q, QUIET.(received := ReceiveError));
    ToStateKeeps(q, c, Faulty);
  }

  lemma FaultClears(q: Port, c: Config)
    requires q.state == Faulty && Calm(q.bank) && InBounds(q.table)
    ensures var s := Step(q, c, QUIET);
      && s.state == Initializing && Calm(s.bank.(elapsed := 0)) && s.table == q.table && s.recordUpdate == q.recordUpdate
      && s.d == q.d && s.o == q.o
  {}

  /** A run in which a port that has initialised again hears one master and follows another, from before. */
  lemma ReinitializedRun(p: Port, c: Config, a: Record, b: Record) returns (q: Port)
    requires PoweredUp(p) && p.o.slaveOnly && |p.table.entries| >= 2
    requires a.sender != OwnPort(p, c) && b.sender != OwnPort(p, c) && a.sender != b.sender
    ensures Reachable(p, c, q) && InBounds(q.table) && q.state == Slave && q.table.number == 1
    ensures |q.table.entries| >= 2 && q.table.entries[1].record == b && FromParent(q, a.sender)
  {
    hide Step, Reachable, Calm, ToState, StateDecision, Added, Armed;
    var q1 := BecomesSlave(p, c, a);
    FaultPass(q1, c);
    ReachableStep(p, c, q1, QUIET.(received := ReceiveError));
    var q2 := Step(q1, c, QUIET.(received := ReceiveError));
    FaultClears(q2, c);
    ReachableStep(p, c, q2, QUIET);
    var q3 := Step(q2, c, QUIET);
    InitPass(q3, c);
    ReachableStep(p, c, q3, QUIET);
    var q4 := Step(q3, c, QUIET);
    QuietDecision(q4, c);
    CalmPass(q4, c, q4, Hearing(AnnounceMsg(b)));
    ListeningHears(q4, c, b);
    ReachableStep(p, c, q4, Hearing(AnnounceMsg(b)));
    var q5 := Step(q4, c, Hearing(AnnounceMsg(b)));
    EntryBehind(q4.table, b);
    DecidesForOnly(q5, c);
    CalmPass(q5, c, StateDecision(q5, c), QUIET);
    ReachableStep(p, c, q5, QUIET);
    q := Step(q5, c, QUIET);
  }

  lemma EntryBehind(t: Table, r: Record)
    requires InBounds(t) && t.number == 0 && t.best == 0 && t.slot == 1 % |t.entries| && |t.entries| >= 2
    ensures var u := Added(t, r);
      InBounds(u) && |u.entries| == |t.entries| && u.number == 1 && u.best == 0 && u.entries[1].record == r && u.entries[0] == t.entries[0]
  {}

  // ---- A passive port

  /** A port of class below 128 that initialised and loses against a record is PASSIVE, before as after. */
  lemma DecidesPassive(p: Port, c: Config, r: Record)
    requires p.recordUpdate && InBounds(p.table) && p.table.number == 1 && p.table.entries[0].record == r
    requires !p.o.slaveOnly && p.d.quality.clockClass < 128 && r.announce.grandmaster != p.d.identity
    requires Bmc.Compare(Bmc.OwnRecord(p.d, r), r, p.d.identity) > 0
    requires p.state == Listening || p.state == Passive
    ensures var q := StateDecision(p, c);
      && q.state == Passive && !q.recordUpdate && q.table == p.table.(best := 0) && q.d == p.d && q.o == p.o
      && q.heard == p.heard && FromParent(q, r.sender) && q.sets.parent.priority1 == r.announce.priority1
      && q.sets.parent.grandmaster == r.announce.grandmaster
  {
    hide Started, Stopped, Bmc.Compare, Bmc.OwnRecord, Bmc.BecomeMaster;
    Bmc.ExecIgnoresScratch(p.state, p.d, p.o, RecordsOf(p.table), p.table.number, p.table.best, RecordsOf(p.table)[0], r, p.sets);
    OtherParent(Bmc.OwnRecord(p.d, r), r, p.d.identity, p.sets.parent.parent.clock);
    OwnGrandmaster(p.d, r);
  }

  lemma OwnGrandmaster(d: DefaultDS, r: Record)
    ensures Bmc.OwnRecord(d, r).announce.grandmaster == d.identity
  {}

  lemma OtherParent(a: Record, b: Record, p: Identity, q: Identity)
    ensures a.announce.grandmaster != b.announce.grandmaster ==> Bmc.Compare(a, b, p) == Bmc.Compare(a, b, q)
  {
    hide Bmc.Memcmp;
  }

  /**
   * A run in which a port in PASSIVE hears its parent announce another priority: the table does not take it, and the next
   * decision puts the outdated data back.
   */
  lemma PassiveKeepsOutdatedRun(p: Port, c: Config, a: Record, b: Record) returns (q: Port, after: Port)
    requires PoweredUp(p) && !p.o.slaveOnly && p.o.quality.clockClass < 128 && a.sender == b.sender != OwnPort(p, c)
    requires a.announce.grandmaster == b.announce.grandmaster != p.d.identity
    requires a.announce.priority1 != b.announce.priority1
    requires var d := Bmc.InitDefault(p.o, p.d.identity).0; Bmc.Compare(Bmc.OwnRecord(d, a), a, d.identity) > 0
    ensures Reachable(p, c, q) && q.state == Passive && InBounds(q.table) && q.table.number == 1
    ensures LatestHeard(q.heard, b.sender) == Some(Heard(b, false)) && q.table.entries[0].record == a
    ensures q.sets.parent.priority1 == b.announce.priority1
    ensures after == Step(q, c, QUIET) && after.state == Passive && after.sets.parent.priority1 == a.announce.priority1
  {
    hide Step, Reachable, Calm, StateDecision, Added, Armed, Bmc.Compare, Bmc.OwnRecord, Bmc.BecomeMaster, LatestHeard;
    var q1 := InitialisedPort(p, c);
    QuietDecision(q1, c);
    CalmPass(q1, c, q1, Hearing(AnnounceMsg(a)));
    ListeningHears(q1, c, a);
    FirstEntry(q1.table, a);
    ReachableStep(p, c, q1, Hearing(AnnounceMsg(a)));
    var q2 := Step(q1, c, Hearing(AnnounceMsg(a)));
    DecidesPassive(q2, c, a);
    CalmPass(q2, c, StateDecision(q2, c), QUIET);
    ReachableStep(p, c, q2, QUIET);
    var q3 := Step(q2, c, QUIET);
    QuietDecision(q3, c);
    CalmPass(q3, c, q3, Hearing(AnnounceMsg(b)));
    ReachableStep(p, c, q3, Hearing(AnnounceMsg(b)));
    q := Step(q3, c, Hearing(AnnounceMsg(b)));
    PassiveHears(q3, c, b);
    HeardOneMore(q3.heard, Heard(b, false), b.sender);
    DecidesPassive(q, c, a);
    CalmPass(q, c, StateDecision(q, c), QUIET);
    after := Step(q, c, QUIET);
  }

  lemma PassiveHears(p: Port, c: Config, r: Record)
    requires p.state == Passive && InBounds(p.table) && FromParent(p, r.sender) && r.sender != OwnPort(p, c)
    ensures var q := Handle(p, c, Hearing(AnnounceMsg(r)));
      && q == p.(recordUpdate := true, sets := q.sets, bank := q.bank, heard := p.heard + [Heard(r, false)])
      && q.sets.parent.priority1 == r.announce.priority1
  {
    hide Started;
  }

  // ---- Failures around the announce receipt timeout

  lemma InitialisedPort(p: Port, c: Config) returns (q: Port)
    requires PoweredUp(p)
    ensures Reachable(p, c, q) && q.state == Listening && Calm(q.bank) && Armed(q.bank, ANNOUNCE_RECEIPT) && Timed(q, c)
    ensures (q.d, q.o) == Bmc.InitDefault(p.o, p.d.identity) && q.table == p.table && !q.recordUpdate
    ensures q.log == [ServoInit] && q.pair == p.pair.(logMinDelayReqInterval := c.initialDelayReq)
  {
    hide Step, Reachable, Calm, Bmc.BecomeMaster, Armed, Profile;
    PoweredUpIsCalm(p);
    InitPass(p, c);
    ReachableFromStart(p, c);
    ReachableStep(p, c, p, QUIET);
    q := Step(p, c, QUIET);
    ReachableTimed(p, c, q);
    ProfileArms(q.bank, c, q.state, Probing(c, q.state, q.pair.waitingForFirstSync));
  }

  /** In a pass without a fault the timeout empties the table and keeps the pending update. */
  lemma TimedOutTable(p: Port, c: Config, input: Input)
    requires ValidBank(p.bank) && input.delayReqSent && input.pdelayReqSent
    requires Due(Later(p.bank, input.alarms.0), ANNOUNCE_RECEIPT)
    ensures var q := SlaveTimers(p, c, input); q.table == Emptied(p.table) && q.recordUpdate == p.recordUpdate && q.o == p.o
  {
    hide PollTimer, AnnounceTimeout, IssueDelayReq, IssuePDelayReq, Due, ValidBank, Emptied;
    PollReports(p, ANNOUNCE_RECEIPT, input.alarms.0);
    var p1 := PollTimer(p, ANNOUNCE_RECEIPT, input.alarms.0).0;
    TimeoutTable(p1, c);
    TimeoutKeepsClock(p1, c);
    var p2 := AnnounceTimeout(p1, c);
    PollKeepsState(p2, OPERATOR_MESSAGES, input.alarms.1);
    var p3 := PollTimer(p2, OPERATOR_MESSAGES, input.alarms.1).0;
    PollKeepsState(p3, DELAYREQ_INTERVAL, input.alarms.2);
    RequestsKeepTable(PollTimer(p3, DELAYREQ_INTERVAL, input.alarms.2).0, c, input);
    PollKeepsState(p3, PDELAYREQ_INTERVAL, input.alarms.2);
    RequestsKeepTable(PollTimer(p3, PDELAYREQ_INTERVAL, input.alarms.2).0, c, input);
  }

  lemma RequestsKeepTable(p: Port, c: Config, input: Input)
    requires input.delayReqSent && input.pdelayReqSent
    ensures var q := IssueDelayReq(p, c, input); q.table == p.table && q.recordUpdate == p.recordUpdate && q.o == p.o
    ensures var q := IssuePDelayReq(p, c, input); q.table == p.table && q.recordUpdate == p.recordUpdate && q.o == p.o
  {
    hide ToState, Sum, Started;
  }

  lemma ListeningStep(q: Port, c: Config, input: Input)
    requires InBounds(q.table) && q.state == Listening && !q.recordUpdate
    ensures Step(q, c, input) == SlaveTimers(Handle(q, c, input), c, input)
  {
    hide SlaveTimers, ToState, Handle;
  }

  /** A run to a slave-only port that has forgotten all masters and will follow one of them. */
  lemma TimeoutWithUpdateRun(p: Port, c: Config, r: Record) returns (q: Port)
    requires PoweredUp(p) && p.o.slaveOnly && r.sender != OwnPort(p, c)
    ensures Reachable(p, c, q) && InBounds(q.table) && q.state == Listening && q.table.number == 0
    ensures StateDecision(q, c).state == Slave && FromParent(StateDecision(q, c), r.sender)
  {
    hide Step, Reachable, Calm, SlaveTimers, ToState, StateDecision, Armed;
    var q1 := InitialisedPort(p, c);
    CalmIsValid(q1.bank);
    CalmElapsed(q1.bank);
    ArmedLeft(q1.bank, ANNOUNCE_RECEIPT);
    var input := Hearing(AnnounceMsg(r)).(alarms := (q1.bank.timers[ANNOUNCE_RECEIPT].left, 0, 0));
    ListeningHears(q1, c, r);
    var told := q1.(recordUpdate := true, table := Added(q1.table, r), heard := q1.heard + [Heard(r, true)]);
    FirstEntry(q1.table, r);
    DueAtLast(q1.bank, ANNOUNCE_RECEIPT);
    TimedOutTable(told, c, input);
    SlaveTimersState(told, c, input);
    ListeningStep(q1, c, input);
    ReachableStep(p, c, q1, input);
    q := Step(q1, c, input);
    FollowsForgotten(q, c);
  }

  lemma DueAtLast(b: Bank, i: nat)
    requires ValidBank(b) && b.elapsed == 0 && Armed(b, i)
    ensures i < TIMER_ARRAY_SIZE && b.timers[i].left >= 0 && Due(Later(b, b.timers[i].left), i)
  {}

  lemma FollowsForgotten(q: Port, c: Config)
    requires InBounds(q.table) && q.state == Listening && q.recordUpdate && q.o.slaveOnly
    ensures StateDecision(q, c).state == Slave
    ensures q.table.number == 0 ==> FromParent(StateDecision(q, c), q.table.entries[0].record.sender)
  {
    hide ToState, Bmc.Compare;
    var (decided, sets, best) :=
      Bmc.Exec(q.state, q.d, q.o, RecordsOf(q.table), q.table.number, q.table.best, RecordsOf(q.table)[0], q.sets);
    ToStateKeeps(q.(recordUpdate := false, sets := sets, table := q.table.(best := best)), c, decided);
  }

  /** The announce receipt timer runs out between its own poll and the next. */
  lemma LatchedByNextPoll(p: Port, c: Config, input: Input)
    requires p.state == Listening && Calm(p.bank) && Armed(p.bank, ANNOUNCE_RECEIPT)
    requires input == QUIET.(alarms := (0, p.bank.timers[ANNOUNCE_RECEIPT].left, 0))
    ensures var q := SlaveTimers(p, c, input);
      q.state == Listening && |q.bank.timers| == TIMER_ARRAY_SIZE && q.bank.timers[ANNOUNCE_RECEIPT].expire
      && q.table == p.table && q.recordUpdate == p.recordUpdate && q.d == p.d && q.o == p.o
  {
    hide PollTimer, AnnounceTimeout, IssueDelayReq, IssuePDelayReq, Calm, Armed;
    CalmPoll(p, ANNOUNCE_RECEIPT);
    CalmIsValid(p.bank);
    CalmElapsed(p.bank);
    DueAtLast(p.bank, ANNOUNCE_RECEIPT);
    PollKeepsState(p, OPERATOR_MESSAGES, input.alarms.1);
    PollLatches(p, ANNOUNCE_RECEIPT, OPERATOR_MESSAGES, input.alarms.1);
    var p3 := PollTimer(p, OPERATOR_MESSAGES, input.alarms.1).0;
    PollKeepsState(p3, DELAYREQ_INTERVAL, 0);
    PollLatches(p3, ANNOUNCE_RECEIPT, DELAYREQ_INTERVAL, 0);
    RequestsKeepLatch(PollTimer(p3, DELAYREQ_INTERVAL, 0).0, c, input);
    PollKeepsState(p3, PDELAYREQ_INTERVAL, 0);
    PollLatches(p3, ANNOUNCE_RECEIPT, PDELAYREQ_INTERVAL, 0);
    RequestsKeepLatch(PollTimer(p3, PDELAYREQ_INTERVAL, 0).0, c, input);
  }

  lemma CalmElapsed(b: Bank)
    requires Calm(b)
    ensures b.elapsed == 0
  {}

  lemma RequestsKeepLatch(p: Port, c: Config, input: Input)
    requires input.delayReqSent && input.pdelayReqSent && ValidBank(p.bank)
    ensures var q := IssueDelayReq(p, c, input);
      q.state == p.state && |q.bank.timers| == TIMER_ARRAY_SIZE && q.table == p.table && q.recordUpdate == p.recordUpdate
      && q.d == p.d && q.o == p.o && q.bank.timers[ANNOUNCE_RECEIPT] == p.bank.timers[ANNOUNCE_RECEIPT]
    ensures var q := IssuePDelayReq(p, c, input);
      q.state == p.state && q.bank == p.bank && q.table == p.table && q.recordUpdate == p.recordUpdate
      && q.d == p.d && q.o == p.o
  {
    hide ToState, Sum;
  }

  /** A run in which a receive error makes a listening port MASTER. */
  lemma LatchedReceiptRun(p: Port, c: Config) returns (q: Port)
    requires PoweredUp(p) && !p.o.slaveOnly && p.o.quality.clockClass != Bmc.SLAVE_ONLY_CLOCK_CLASS
    ensures Reachable(p, c, q) && InBounds(q.table) && q.state == Listening && !q.recordUpdate
    ensures Step(q, c, QUIET.(received := ReceiveError)).state == Master
  {
    hide Step, Reachable, Calm, SlaveTimers, ToState, Timed, Armed;
    var q1 := InitialisedPort(p, c);
    CalmIsValid(q1.bank);
    ArmedLeft(q1.bank, ANNOUNCE_RECEIPT);
    var input := QUIET.(alarms := (0, q1.bank.timers[ANNOUNCE_RECEIPT].left, 0));
    LatchedByNextPoll(q1, c, input);
    ListeningStep(q1, c, input);
    ReachableStep(p, c, q1, input);
    q := Step(q1, c, input);
    ReachableTimed(p, c, q);
    LatchedReceiptLeavesFault(q, c, QUIET.(received := ReceiveError));
    StepIsDoState(q, c, QUIET.(received := ReceiveError));
  }

  lemma ArmedLeft(b: Bank, i: nat)
    requires ValidBank(b) && Armed(b, i)
    ensures i < TIMER_ARRAY_SIZE && b.timers[i].left > 0
  {}

  lemma StepIsDoState(q: Port, c: Config, input: Input)
    requires InBounds(q.table) && q.state != Initializing
    ensures Step(q, c, input) == DoState(q, c, input)
  {
    hide DoState, DoInit;
  }

  /** Enough ticks for both timers. */
  function Both(b: Bank): (n: nat)
    requires ValidBank(b)
    ensures n >= b.timers[ANNOUNCE_RECEIPT].left && n >= b.timers[DELAYREQ_INTERVAL].left
  {
    var x, y := b.timers[ANNOUNCE_RECEIPT].left, b.timers[DELAYREQ_INTERVAL].left;
    if x >= y && x >= 0 then x else if y >= 0 then y else 0
  }

  lemma BothDue(b: Bank)
    requires ValidBank(b) && Armed(b, ANNOUNCE_RECEIPT) && Armed(b, DELAYREQ_INTERVAL)
    ensures Due(Later(b, Both(b)), ANNOUNCE_RECEIPT) && Due(Later(b, Both(b)), DELAYREQ_INTERVAL)
  {}

  /** A run to a MASTER whose Delay_Req timer runs. */
  lemma RequestIntoMasterRun(p: Port, c: Config, r: Record) returns (q: Port)
    requires PoweredUp(p) && !p.o.slaveOnly && 128 <= p.o.quality.clockClass < Bmc.SLAVE_ONLY_CLOCK_CLASS
    requires c.mechanism == Servo.E2E && r.sender != OwnPort(p, c)
    requires var d := Bmc.InitDefault(p.o, p.d.identity).0; Bmc.Compare(Bmc.OwnRecord(d, r), r, d.identity) > 0
    ensures Reachable(p, c, q) && q.state == Master && Armed(q.bank, DELAYREQ_INTERVAL)
    ensures q.pair.sentDelayReqSequenceId == 1
  {
    hide Step, Reachable, Calm, Started, ToState, StateDecision, Armed, Due, SlaveTimers, Bmc.Compare, Profile, Sum;
    var q1 := BecomesSlave(p, c, r);
    var sync := Header(r.sender, 0, ZERO, true, 0);
    SyncPass(q1, c, sync, ZERO);
    ReachableStep(p, c, q1, Hearing(SyncMsg(sync, ZERO, ZERO)));
    var q2 := Step(q1, c, Hearing(SyncMsg(sync, ZERO, ZERO)));
    CalmIsValid(q2.bank);
    ReachableTimed(p, c, q2);
    TimedArms(q2, c);
    BothDue(q2.bank);
    var input := QUIET.(alarms := (Both(q2.bank), 0, 0));
    LatchedRequestFollowsIntoMaster(q2, c, input);
    SlaveTimersState(q2, c, input);
    QuietDecision(q2, c);
    RequestStep(q2, c, q2, input);
    ReachableStep(p, c, q2, input);
    q := Step(q2, c, input);
  }

  lemma TimedArms(q: Port, c: Config)
    requires Timed(q, c) && q.state == Slave
    ensures Armed(q.bank, ANNOUNCE_RECEIPT)
  {
    ProfileArms(q.bank, c, q.state, Probing(c, q.state, q.pair.waitingForFirstSync));
  }

  // ---- Peer delay of a master

  /** A master that is asked nothing and has no peer request due. */
  predicate Leads(q: Port, c: Config) {
    && q.state == Master && !SlaveOnlyClock(q) && !q.recordUpdate && InBounds(q.table) && c.mechanism == Servo.P2P
    && ValidBank(q.bank) && q.bank.elapsed == 0 && Armed(q.bank, PDELAYREQ_INTERVAL)
    && !q.bank.timers[PDELAYREQ_INTERVAL].expire
  }

  lemma PeerPoll(p: Port, timer: nat, ticks: nat)
    requires ValidBank(p.bank) && p.bank.elapsed == 0 && Armed(p.bank, PDELAYREQ_INTERVAL)
    requires !p.bank.timers[PDELAYREQ_INTERVAL].expire && timer < TIMER_ARRAY_SIZE
    requires ticks == 0 || (timer == PDELAYREQ_INTERVAL && ticks == p.bank.timers[PDELAYREQ_INTERVAL].left)
    ensures var (q, expired) := PollTimer(p, timer, ticks);
      && q == p.(bank := q.bank) && ValidBank(q.bank) && q.bank.elapsed == 0 && Armed(q.bank, PDELAYREQ_INTERVAL)
      && !q.bank.timers[PDELAYREQ_INTERVAL].expire
      && (ticks == 0 ==> q.bank.timers[PDELAYREQ_INTERVAL] == p.bank.timers[PDELAYREQ_INTERVAL])
      && (timer == PDELAYREQ_INTERVAL ==> (expired <==> ticks > 0))
  {
    ApplyIsSound(Later(p.bank, ticks), Poll(timer, 0));
  }

  /** Its polls send a peer request exactly if that timer runs out. */
  lemma MasterPolls(q: Port, c: Config, input: Input)
    requires Leads(q, c) && input.announceSent && input.syncSent && input.pdelayReqSent
    requires input.alarms == (0, 0, 0) || input.alarms == (0, 0, q.bank.timers[PDELAYREQ_INTERVAL].left)
    ensures var s, a := MasterTimers(q, c, input), q.(announced := true);
      && s == (if input.alarms.2 > 0 then IssuePDelayReq(a, c, input) else a).(bank := s.bank) && Leads(s, c)
  {
    hide PollTimer, ToState, ValidBank, Armed, Sum;
    var p0 := q.(announced := true);
    PeerPoll(p0, SYNC_INTERVAL, 0);
    var p1 := PollTimer(p0, SYNC_INTERVAL, 0).0;
    PeerPoll(p1, ANNOUNCE_INTERVAL, 0);
    var p3 := PollTimer(p1, ANNOUNCE_INTERVAL, 0).0;
    PeerPoll(p3, PDELAYREQ_INTERVAL, input.alarms.2);
  }

  lemma LeadingStep(q: Port, c: Config, input: Input)
    requires Leads(q, c) && InBounds(MasterTimers(q, c, input).table)
    requires var s := Handle(MasterTimers(q, c, input), c, input); !SlaveOnlyClock(s)
    ensures Step(q, c, input) == Handle(MasterTimers(q, c, input), c, input)
  {
    hide MasterTimers, Handle, ToState, SlaveOnlyClock;
    QuietDecision(q, c);
  }

  lemma TimeoutLeads(p: Port, c: Config)
    requires p.state == Listening && !SlaveOnlyClock(p) && !p.recordUpdate && InBounds(p.table) && c.mechanism == Servo.P2P
    requires ValidBank(p.bank) && p.bank.elapsed == 0
    ensures var q := AnnounceTimeout(p, c); Leads(q, c) && q.pair == p.pair && q.log == p.log && q.d == p.d && q.o == p.o
  {
    hide Bmc.BecomeMaster;
  }

  lemma BecomesLeader(p: Port, c: Config) returns (q: Port)
    requires PoweredUp(p) && !p.o.slaveOnly && p.o.quality.clockClass != Bmc.SLAVE_ONLY_CLOCK_CLASS
    requires c.mechanism == Servo.P2P
    ensures Reachable(p, c, q) && Leads(q, c) && q.log == [ServoInit] && OwnPort(q, c) == OwnPort(p, c)
    ensures q.pair == p.pair.(logMinDelayReqInterval := c.initialDelayReq)
  {
    hide Step, Reachable, Calm, AnnounceTimeout, PollTimer, Timed, Armed, Leads, Due, IssuePDelayReq;
    var q1 := InitialisedPort(p, c);
    CalmIsValid(q1.bank);
    CalmElapsed(q1.bank);
    ArmedLeft(q1.bank, ANNOUNCE_RECEIPT);
    var input := QUIET.(alarms := (q1.bank.timers[ANNOUNCE_RECEIPT].left, 0, 0));
    DueAtLast(q1.bank, ANNOUNCE_RECEIPT);
    PollReports(q1, ANNOUNCE_RECEIPT, input.alarms.0);
    var q2 := PollTimer(q1, ANNOUNCE_RECEIPT, input.alarms.0).0;
    TimeoutLeads(q2, c);
    LeaderPoll(AnnounceTimeout(q2, c), c, OPERATOR_MESSAGES);
    LeaderPoll(PollTimer(AnnounceTimeout(q2, c), OPERATOR_MESSAGES, 0).0, c, PDELAYREQ_INTERVAL);
    ListeningStep(q1, c, input);
    ReachableStep(p, c, q1, input);
    q := Step(q1, c, input);
  }

  lemma LeaderPoll(p: Port, c: Config, timer: nat)
    requires Leads(p, c) && timer < TIMER_ARRAY_SIZE
    ensures var (q, expired) := PollTimer(p, timer, 0);
      q == p.(bank := q.bank) && Leads(q, c) && (timer == PDELAYREQ_INTERVAL ==> !expired)
  {
    hide PollTimer, ValidBank, Armed;
    PeerPoll(p, timer, 0);
  }

  /** A leader's pass in which the peer request goes out. */
  lemma PeerRequestPass(p: Port, c: Config, q: Port, stamp: Option<Time>) returns (s: Port)
    requires PoweredUp(p) && Reachable(p, c, q) && Leads(q, c)
    ensures Reachable(p, c, s) && Leads(s, c) && s.log == q.log && s.d == q.d
    ensures s.pair == IssuePDelayReq(q, c, QUIET.(txStamp := stamp)).pair
  {
    hide Step, Reachable, MasterTimers, ToState, Sum;
    ArmedLeft(q.bank, PDELAYREQ_INTERVAL);
    var input := QUIET.(txStamp := stamp, alarms := (0, 0, q.bank.timers[PDELAYREQ_INTERVAL].left));
    MasterPolls(q, c, input);
    LeadingStep(q, c, input);
    ReachableStep(p, c, q, input);
    s := Step(q, c, input);
  }

  /** A leader's pass in which a peer message arrives. */
  lemma PeerMessagePass(p: Port, c: Config, q: Port, m: Message) returns (s: Port)
    requires PoweredUp(p) && Reachable(p, c, q) && Leads(q, c) && (m.PDelayRespMsg? || m.PDelayRespFollowUpMsg?)
    ensures Reachable(p, c, s) && Leads(s, c) && s.d == q.d
    ensures s.log == HandleMessage(q, c, m, QUIET).log && s.pair == HandleMessage(q, c, m, QUIET).pair
  {
    hide Step, Reachable, MasterTimers, ToState, Sum, ValidBank, Armed;
    MasterPolls(q, c, Hearing(m));
    LeadingStep(q, c, Hearing(m));
    ReachableStep(p, c, q, Hearing(m));
    s := Step(q, c, Hearing(m));
  }

  /** A run in which one Pdelay_Resp_Follow_Up, received twice, drives two updates. */
  lemma RepeatedPeerFollowUpRun(p: Port, c: Config, stamp: Time, h: Header, receipt: Time, arrival: Time, f: Header,
                                origin: Time) returns (q: Port)
    requires PoweredUp(p) && !p.o.slaveOnly && p.o.quality.clockClass != Bmc.SLAVE_ONLY_CLOCK_CLASS
    requires c.mechanism == Servo.P2P && h.twoStep && h.sequence == f.sequence == 0
    ensures Reachable(p, c, q)
    ensures var update := PeerDelayUpdate(Servo.PeerTimes(Sum(stamp, c.outboundLatency), receipt, origin, arrival),
                                          Sum(f.correction, h.correction), true);
      q.log == [ServoInit, update, update]
  {
    hide Step, Reachable, Leads, Sum, ToState;
    var q1 := BecomesLeader(p, c);
    var q2 := PeerRequestPass(p, c, q1, Some(stamp));
    LeaderIsMaster(q2, c);
    var q3 := PeerMessagePass(p, c, q2, PDelayRespMsg(h, OwnPort(q2, c), receipt, arrival));
    LeaderIsMaster(q3, c);
    var q4 := PeerMessagePass(p, c, q3, PDelayRespFollowUpMsg(f, origin));
    LeaderIsMaster(q4, c);
    q := PeerMessagePass(p, c, q4, PDelayRespFollowUpMsg(f, origin));
  }

  lemma LeaderIsMaster(q: Port, c: Config)
    requires Leads(q, c)
    ensures q.state == Master && InBounds(q.table)
  {}

  lemma {:induction false} PeerRounds(p: Port, c: Config, q: Port, stamp: Option<Time>, n: nat) returns (s: Port)
    requires PoweredUp(p) && Reachable(p, c, q) && Leads(q, c) && q.pair.sentPDelayReqSequenceId + n <= 0xFFFF
    ensures Reachable(p, c, s) && Leads(s, c) && s.pair.sentPDelayReqSequenceId == q.pair.sentPDelayReqSequenceId + n
    decreases n
  {
    if n == 0 {
      s := q;
    } else {
      hide Reachable, Leads, PoweredUp, Sum, ToState;
      var t := PeerRequestPass(p, c, q, stamp);
      s := PeerRounds(p, c, t, stamp, n - 1);
    }
  }

  /** A run to a stamped peer request that no response can answer: the 65536th. */
  lemma WrappedPeerRequestRun(p: Port, c: Config, stamp: Time) returns (q: Port)
    requires PoweredUp(p) && !p.o.slaveOnly && p.o.quality.clockClass != Bmc.SLAVE_ONLY_CLOCK_CLASS
    requires c.mechanism == Servo.P2P
    ensures Reachable(p, c, q) && q.state == Master && q.pair.peer.reqSend == Sum(stamp, c.outboundLatency)
    ensures q.pair.sentPDelayReqSequenceId == NextId(0xFFFF)
    ensures forall h: Header, receipt: Time, arrival: Time :: h.sequence == 0xFFFF ==>
      HandlePDelayResp(q, c, h, OwnPort(q, c), receipt, arrival) == q
    ensures forall f: Header, origin: Time :: f.sequence == 0xFFFF ==> HandlePDelayRespFollowUp(q, f, origin) == q
  {
    hide Step, Reachable, Leads, Sum, ToState;
    var q1 := BecomesLeader(p, c);
    var q2 := PeerRounds(p, c, q1, Some(stamp), 0xFFFF);
    q := PeerRequestPass(p, c, q2, Some(stamp));
    LeaderIsMaster(q, c);
  }
}
