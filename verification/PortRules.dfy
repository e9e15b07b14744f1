/** Which messages a port acts on, when it becomes faulty, and what one-step exchanges measure. */
module PortRules {
  import opened Bits
  import opened TimeArith
  import opened DataSets
  import opened Timers
  import opened ForeignMasters
  import opened Port
  import opened PortInvariants
  import opened PortPairing
  import opened PortFailures
  import Bmc
  import PortRuns
  import Servo

  // ---- Which messages count

  /** A Sync counts exactly if a follower has it from its parent; any other leaves the port as it was. */
  lemma SyncIsHeardIff(p: Port, c: Config, h: Header, origin: Time, stamp: Time)
    ensures var q := HandleSync(p, c, h, origin, stamp);
      && (q.log != p.log <==> (p.state == Slave || p.state == Uncalibrated) && p.sets.parent.parent == h.sender
                              && h.sender != PortIdentity(p.d.identity, c.portNumber))
      && (q.log == p.log ==> q == p)
  {
    hide Started;
    var heard := SyncHeard(h.sender, h.sequence, stamp, h.correction, h.twoStep);
    assert |p.log + [heard]| > |p.log|;
    assert |p.log + [heard] + [OffsetUpdate(h.sender, h.sequence, origin, stamp, h.correction, None)]| > |p.log|;
  }

  /** A Follow_Up counts exactly if a follower has it from its parent, with the sequence id of the Sync it waits on. */
  lemma FollowUpIsUsedIff(p: Port, c: Config, h: Header, origin: Time)
    ensures var q := HandleFollowUp(p, c, h, origin);
      && (q != p <==> (p.state == Slave || p.state == Uncalibrated) && p.sets.parent.parent == h.sender
                      && h.sender != PortIdentity(p.d.identity, c.portNumber)
                      && p.pair.waitingForFollow && p.pair.recvSyncSequenceId == h.sequence)
      && (q != p ==> !q.pair.waitingForFollow && |q.log| == |p.log| + 1)
  {
    hide Sum;
  }

  /** A Delay_Resp counts exactly if a waiting slave has it from its parent, for itself and for its latest request. */
  lemma DelayRespIsUsedIff(p: Port, c: Config, h: Header, requester: PortIdentity, receipt: Time)
    ensures var q := HandleDelayResp(p, c, h, requester, receipt);
      && (q != p <==> p.state == Slave && p.sets.parent.parent == h.sender
                      && requester == PortIdentity(p.d.identity, c.portNumber)
                      && p.pair.waitingForDelayResp && p.pair.sentDelayReqSequenceId == h.sequence + 1)
      && (q != p ==> !q.pair.waitingForDelayResp && |q.log| == |p.log| + 1)
  {}

  /** A Pdelay_Resp counts exactly if a measuring port has it for itself and for its latest request. */
  lemma PDelayRespIsUsedIff(p: Port, c: Config, h: Header, requester: PortIdentity, receipt: Time, stamp: Time)
    ensures var q := HandlePDelayResp(p, c, h, requester, receipt, stamp);
      if (p.state == Slave || p.state == Master || p.state == Passive) && p.pair.sentPDelayReqSequenceId == h.sequence + 1
         && requester == PortIdentity(p.d.identity, c.portNumber)
      then
        && q.pair.recvPDelayRespSequenceId == h.sequence && q.pair.peer.respRecv == stamp
        && q.pair.peer.reqSend == p.pair.peer.reqSend && q.pair.peer.respSend == p.pair.peer.respSend
        && (h.twoStep ==> q.pair.peer.reqRecv == receipt && q.pair.lastPDelayCorrection == h.correction && q.log == p.log)
        && (!h.twoStep ==> q.log == p.log + [PeerDelayUpdate(q.pair.peer, h.correction, false)])
      else q == p
  {}

  /** Its Follow_Up counts exactly if a slave or master has it for its latest request and the response it last took. */
  lemma PDelayFollowUpIsUsedIff(p: Port, h: Header, origin: Time)
    ensures HandlePDelayRespFollowUp(p, h, origin) != p <==>
      (p.state == Slave || p.state == Master) && p.pair.sentPDelayReqSequenceId == h.sequence + 1
      && p.pair.recvPDelayRespSequenceId == h.sequence
    ensures var q := HandlePDelayRespFollowUp(p, h, origin);
      q != p ==> |q.log| == |p.log| + 1 && Last(q.log).PeerDelayUpdate? && Last(q.log).times == q.pair.peer
                 && q.pair.peer.respSend == origin && q.pair.peer.respRecv == p.pair.peer.respRecv
                 && q.pair.peer.reqSend == p.pair.peer.reqSend && q.pair.peer.reqRecv == p.pair.peer.reqRecv
  {
    hide Sum;
    var q := HandlePDelayRespFollowUp(p, h, origin);
    var used := (p.state == Slave || p.state == Master) && p.pair.sentPDelayReqSequenceId == h.sequence + 1
                && p.pair.recvPDelayRespSequenceId == h.sequence;
    assert used ==> |q.log| == |p.log| + 1;
  }

  /** Messages of the other delay mechanism, whole or cut short, change nothing. */
  lemma OtherMechanismIsIgnored(p: Port, c: Config, input: Input)
    requires InBounds(p.table) && input.received.Got?
    requires var m := input.received.m;
      || ((m.DelayReqMsg? || m.DelayRespMsg?) && c.mechanism != Servo.E2E)
      || ((m.PDelayReqMsg? || m.PDelayRespMsg? || m.PDelayRespFollowUpMsg?) && c.mechanism != Servo.P2P)
      || m.OtherMsg?
    ensures Handle(p, c, input) == p
  {}

  // ---- When a port becomes faulty

  predicate EndToEndMsg(m: Message) { m.DelayReqMsg? || m.DelayRespMsg? }

  predicate PeerMsg(m: Message) { m.PDelayReqMsg? || m.PDelayRespMsg? || m.PDelayRespFollowUpMsg? }

  /** Receiving makes a port faulty exactly by an error, a message cut short, or a reply that cannot be sent. */
  lemma ReceivingFaultsIff(p: Port, c: Config, input: Input)
    requires InBounds(p.table) && p.state != Faulty
    ensures Handle(p, c, input).state == Faulty <==>
      || input.received == ReceiveError || input.received == ShortHeader
      || (input.received.Got? && !input.received.m.OtherMsg?
          && (EndToEndMsg(input.received.m) ==> c.mechanism == Servo.E2E)
          && (PeerMsg(input.received.m) ==> c.mechanism == Servo.P2P)
          && (input.received.short
              || (!input.replySent
                  && ((input.received.m.DelayReqMsg? && p.state == Master)
                      || (input.received.m.PDelayReqMsg?
                          && (p.state == Slave || p.state == Master || p.state == Passive)
                          && input.received.m.h.sender != PortIdentity(p.d.identity, c.portNumber))))))
  {
    hide ToState, Started, Added, Refreshed, Bmc.FollowRecord, RequestsStarted, Sum;
    ToStateKeeps(p, c, Faulty);
  }

  /** Sending makes a master faulty exactly if a Sync or Announce is due, or it has announced nothing yet, and fails. */
  lemma SendingFaultsIff(p: Port, c: Config, input: Input)
    requires p.state == Master && ValidBank(p.bank)
    ensures MasterMessages(p, c, input).state == Faulty <==>
      || (!input.announceSent && (!p.announced || Due(Later(p.bank, input.alarms.0 + input.alarms.1), ANNOUNCE_INTERVAL)))
      || (!input.syncSent && Due(Later(p.bank, input.alarms.0), SYNC_INTERVAL))
  {
    hide PollTimer, Issue, Due, ValidBank;
    if p.announced || input.announceSent {
      var p0 := p.(announced := true);
      assert (if p.announced then p else Issue(p, c, input.announceSent).(announced := true)) == p0 by { SentIsNothing(p, c); }
      PollReports(p0, SYNC_INTERVAL, input.alarms.0);
      var (p1, sync) := PollTimer(p0, SYNC_INTERVAL, input.alarms.0);
      if sync && !input.syncSent {
        FailedIsFaulty(p1, c);
        FaultyStays(Issue(p1, c, false), c, input.alarms.1, input.announceSent);
      } else {
        SentIsNothing(p1, c);
        PollReports(p1, ANNOUNCE_INTERVAL, input.alarms.1);
        LaterTwice(p0, SYNC_INTERVAL, ANNOUNCE_INTERVAL, input.alarms.0, input.alarms.1);
        var p3 := PollTimer(p1, ANNOUNCE_INTERVAL, input.alarms.1).0;
        SentIsNothing(p3, c);
        FailedIsFaulty(p3, c);
      }
    } else {
      FailedIsFaulty(p, c);
      var p0 := Issue(p, c, false).(announced := true);
      PollKeepsState(p0, SYNC_INTERVAL, input.alarms.0);
      var p1 := PollTimer(p0, SYNC_INTERVAL, input.alarms.0).0;
      FaultyStays(p1, c, input.alarms.1, input.announceSent);
      FailedIsFaulty(p1, c);
      SentIsNothing(p1, c);
      FaultyStays(Issue(p1, c, input.syncSent), c, input.alarms.1, input.announceSent);
    }
  }

  lemma SentIsNothing(p: Port, c: Config)
    ensures Issue(p, c, true) == p
  {}

  lemma FailedIsFaulty(p: Port, c: Config)
    ensures Issue(p, c, false).state == Faulty
  {
    hide ToState;
    ToStateKeeps(p, c, Faulty);
  }

  lemma FaultyStays(p: Port, c: Config, alarms: nat, sent: bool)
    requires p.state == Faulty
    ensures PollTimer(p, ANNOUNCE_INTERVAL, alarms).0.state == Faulty
    ensures Issue(PollTimer(p, ANNOUNCE_INTERVAL, alarms).0, c, sent).state == Faulty
  {
    hide PollTimer;
    PollKeepsState(p, ANNOUNCE_INTERVAL, alarms);
    var q := PollTimer(p, ANNOUNCE_INTERVAL, alarms).0;
    SentIsNothing(q, c);
    FailedIsFaulty(q, c);
  }

  /** A timer that no one polls counts interrupts on through the polls of others. */
  lemma LaterTwice(p: Port, timer: nat, i: nat, first: nat, second: nat)
    requires ValidBank(p.bank) && timer < TIMER_ARRAY_SIZE && i < TIMER_ARRAY_SIZE && i != timer
    ensures var q := PollTimer(p, timer, first).0;
      ValidBank(q.bank) && (Due(Later(q.bank, second), i) <==> Due(Later(p.bank, first + second), i))
  {
    PollReports(p, timer, first);
  }

  // ---- When requests go out

  /** A sent Delay_Req takes the next sequence id and a fresh random interval, a Pdelay_Req only the next sequence id. */
  lemma IssueOutcome(p: Port, c: Config, input: Input)
    ensures var q := IssueDelayReq(p, c, input);
      if !input.delayReqSent then q.state == Faulty && q.pair == p.pair
      else
        && q.state == p.state && q.pair.sentDelayReqSequenceId == NextId(p.pair.sentDelayReqSequenceId)
        && (ValidBank(p.bank) ==>
              && ValidBank(q.bank) && q.bank.elapsed == p.bank.elapsed
              && q.bank.timers[DELAYREQ_INTERVAL]
                 == IntervalTimer(AtLeastOne(input.delayTicks), AtLeastOne(input.delayTicks), false)
              && forall i :: 0 <= i < TIMER_ARRAY_SIZE && i != DELAYREQ_INTERVAL ==> q.bank.timers[i] == p.bank.timers[i])
    ensures var q := IssuePDelayReq(p, c, input);
      if !input.pdelayReqSent then q.state == Faulty && q.pair == p.pair
      else
        && q.state == p.state && q.pair.sentPDelayReqSequenceId == NextId(p.pair.sentPDelayReqSequenceId)
        && q.bank == p.bank
  {
    hide Stopped, Sum;
  }

  /** The request that the mechanism has due at its poll, after all interrupts of the pass. */
  predicate RequestDue(b: Bank, c: Config)
    requires |b.timers| == TIMER_ARRAY_SIZE
  {
    (c.mechanism == Servo.E2E && Due(b, DELAYREQ_INTERVAL)) || (c.mechanism == Servo.P2P && Due(b, PDELAYREQ_INTERVAL))
  }

  predicate CanRequest(c: Config, input: Input) {
    if c.mechanism == Servo.E2E then input.delayReqSent else input.pdelayReqSent
  }

  /** Without a timeout a port that is not master sends exactly the request due, and is faulty exactly if it cannot. */
  lemma SlaveRequestsIff(p: Port, c: Config, input: Input)
    requires ValidBank(p.bank) && !Due(Later(p.bank, input.alarms.0), ANNOUNCE_RECEIPT)
    ensures var q, b := SlaveTimers(p, c, input), Later(p.bank, input.alarms.0 + input.alarms.1 + input.alarms.2);
      if !RequestDue(b, c) then q == p.(bank := q.bank)
      else if !CanRequest(c, input) then q.state == Faulty && q.pair == p.pair
      else
        && q.state == p.state
        && (c.mechanism == Servo.E2E ==> q.pair.sentDelayReqSequenceId == NextId(p.pair.sentDelayReqSequenceId))
        && (c.mechanism == Servo.P2P ==> q.pair.sentPDelayReqSequenceId == NextId(p.pair.sentPDelayReqSequenceId))
  {
    hide PollTimer, AnnounceTimeout, IssueDelayReq, IssuePDelayReq, Due, ValidBank;
    PollReports(p, ANNOUNCE_RECEIPT, input.alarms.0);
    var p1 := PollTimer(p, ANNOUNCE_RECEIPT, input.alarms.0).0;
    PollReports(p1, OPERATOR_MESSAGES, input.alarms.1);
    var p3 := PollTimer(p1, OPERATOR_MESSAGES, input.alarms.1).0;
    var timer := if c.mechanism == Servo.E2E then DELAYREQ_INTERVAL else PDELAYREQ_INTERVAL;
    LaterTwice(p, ANNOUNCE_RECEIPT, timer, input.alarms.0, input.alarms.1 + input.alarms.2);
    LaterTwice(p1, OPERATOR_MESSAGES, timer, input.alarms.1, input.alarms.2);
    PollReports(p3, timer, input.alarms.2);
    IssueOutcome(PollTimer(p3, timer, input.alarms.2).0, c, input);
  }

  lemma MasterMessagesLater(p: Port, c: Config, input: Input, n: nat)
    requires p.state == Master && ValidBank(p.bank) && MasterMessages(p, c, input).state == Master
    ensures var q := MasterMessages(p, c, input);
      && q == p.(bank := q.bank, announced := true) && ValidBank(q.bank)
      && (Due(Later(q.bank, n), PDELAYREQ_INTERVAL)
          <==> Due(Later(p.bank, input.alarms.0 + input.alarms.1 + n), PDELAYREQ_INTERVAL))
  {
    SendingFaultsIff(p, c, input);
    hide PollTimer, Issue, Due, ValidBank;
    SentIsNothing(p, c);
    var p0 := p.(announced := true);
    PollReports(p0, SYNC_INTERVAL, input.alarms.0);
    var p1 := PollTimer(p0, SYNC_INTERVAL, input.alarms.0).0;
    SentIsNothing(p1, c);
    PollReports(p1, ANNOUNCE_INTERVAL, input.alarms.1);
    LaterTwice(p0, SYNC_INTERVAL, ANNOUNCE_INTERVAL, input.alarms.0, input.alarms.1);
    SentIsNothing(PollTimer(p1, ANNOUNCE_INTERVAL, input.alarms.1).0, c);
    LaterTwice(p0, SYNC_INTERVAL, PDELAYREQ_INTERVAL, input.alarms.0, input.alarms.1 + n);
    LaterTwice(p1, ANNOUNCE_INTERVAL, PDELAYREQ_INTERVAL, input.alarms.1, n);
  }

  /** A master whose messages went out sends a peer request exactly if it is due, and is faulty exactly if it cannot. */
  lemma MasterRequestsIff(p: Port, c: Config, input: Input)
    requires p.state == Master && ValidBank(p.bank) && MasterMessages(p, c, input).state == Master
    ensures var q, b := MasterTimers(p, c, input), Later(p.bank, input.alarms.0 + input.alarms.1 + input.alarms.2);
      var due := c.mechanism == Servo.P2P && Due(b, PDELAYREQ_INTERVAL);
      && (q.state == Faulty <==> due && !input.pdelayReqSent)
      && q.pair.sentPDelayReqSequenceId ==
         if due && input.pdelayReqSent then NextId(p.pair.sentPDelayReqSequenceId) else p.pair.sentPDelayReqSequenceId
  {
    hide PollTimer, MasterMessages, IssuePDelayReq, Due, ValidBank;
    MasterMessagesLater(p, c, input, input.alarms.2);
    var q := MasterMessages(p, c, input);
    PollReports(q, PDELAYREQ_INTERVAL, input.alarms.2);
    IssueOutcome(PollTimer(q, PDELAYREQ_INTERVAL, input.alarms.2).0, c, input);
  }

  // ---- Slave-only clocks and initialisation

  lemma TimersSpareSlaveOnly(p: Port, c: Config, input: Input)
    requires p.state != Master
    ensures var q := SlaveTimers(p, c, input); q.state == Master ==> !SlaveOnlyClock(q)
  {
    hide PollTimer, AnnounceTimeout, IssueDelayReq, IssuePDelayReq;
    PollKeepsState(p, ANNOUNCE_RECEIPT, input.alarms.0);
    var (p1, receipt) := PollTimer(p, ANNOUNCE_RECEIPT, input.alarms.0);
    TimeoutSparesSlaveOnly(p1, c);
    var p2 := if receipt then AnnounceTimeout(p1, c) else p1;
    PollKeepsState(p2, OPERATOR_MESSAGES, input.alarms.1);
    var p3 := PollTimer(p2, OPERATOR_MESSAGES, input.alarms.1).0;
    PollKeepsState(p3, DELAYREQ_INTERVAL, input.alarms.2);
    RequestsSpareSlaveOnly(PollTimer(p3, DELAYREQ_INTERVAL, input.alarms.2).0, c, input);
    PollKeepsState(p3, PDELAYREQ_INTERVAL, input.alarms.2);
    RequestsSpareSlaveOnly(PollTimer(p3, PDELAYREQ_INTERVAL, input.alarms.2).0, c, input);
  }

  lemma TimeoutSparesSlaveOnly(p: Port, c: Config)
    ensures var q := AnnounceTimeout(p, c); q.state == Master ==> !SlaveOnlyClock(q)
  {
    hide AnnounceTimeout;
    TimeoutKeepsClock(p, c);
    PortRuns.TimeoutTable(p, c);
  }

  lemma RequestsSpareSlaveOnly(p: Port, c: Config, input: Input)
    ensures IssueDelayReq(p, c, input).o == IssuePDelayReq(p, c, input).o == p.o
    ensures IssueDelayReq(p, c, input).d == IssuePDelayReq(p, c, input).d == p.d
    ensures IssueDelayReq(p, c, input).state == Master || IssuePDelayReq(p, c, input).state == Master ==> p.state == Master
  {
    hide Started, Stopped, Sum;
  }

  lemma HandleKeepsRole(p: Port, c: Config, input: Input)
    requires InBounds(p.table)
    ensures Handle(p, c, input).state == p.state || Handle(p, c, input).state == Faulty
  {
    hide ToState, Started, Added, Refreshed, Bmc.FollowRecord, RequestsStarted, Sum;
    ToStateKeeps(p, c, Faulty);
  }

  /** No pass leaves a slave-only clock master, by option or by class, not even one that decides it leads. */
  lemma PassSparesSlaveOnly(p: Port, c: Config, input: Input)
    requires InBounds(p.table)
    ensures var q := Step(p, c, input); q.state == Master ==> !SlaveOnlyClock(q)
  {
    hide StateDecision, ToState, Handle, SlaveTimers, MasterTimers, SlaveOnlyClock, Bmc.InitDefault, Bmc.BecomeMaster;
    if p.state == Initializing {
      ToStateKeeps(p, c, Faulty);
      var (d, o) := Bmc.InitDefault(p.o, p.d.identity);
      ToStateKeeps(p.(d := d, o := o, table := Reinitialized(p.table), bank := p.bank.(elapsed := 0),
                      log := p.log + [ServoInit], sets := Bmc.BecomeMaster(d, o, p.sets)), c, Listening);
    } else {
      DecisionInBounds(p, c);
      var q := StateDecision(p, c);
      ToStateKeeps(q, c, Initializing);
      HandleKeepsRole(q, c, input);
      if q.state == Master {
        TimersKeepTable(q, c, input);
        ToStateKeeps(Handle(MasterTimers(q, c, input), c, input), c, Listening);
      } else {
        TimersSpareSlaveOnly(Handle(q, c, input), c, input);
      }
    }
  }

  /** So in every run from power-up a master is not a slave-only clock. */
  lemma {:induction false} NoSlaveOnlyMaster(p: Port, c: Config, inputs: seq<Input>)
    requires InBounds(p.table) && (p.state == Master ==> !SlaveOnlyClock(p))
    ensures var q := PortRuns.Run(p, c, inputs); q.state == Master ==> !SlaveOnlyClock(q)
    decreases |inputs|
  {
    if inputs != [] {
      hide Step, SlaveOnlyClock;
      PassSparesSlaveOnly(p, c, inputs[0]);
      PortRuns.StepInBounds(p, c, inputs[0]);
      NoSlaveOnlyMaster(Step(p, c, inputs[0]), c, inputs[1..]);
    }
  }

  /** Initialisation ends in LISTENING as its own grandmaster if the network opens, and otherwise in FAULTY as it was. */
  lemma InitialisesIff(p: Port, c: Config, input: Input)
    requires p.state == Initializing
    ensures var q := DoInit(p, c, input);
      if !input.netInit then q == p.(state := Faulty)
      else
        && q.state == Listening && q.d.identity == p.d.identity && Bmc.OwnSets(q.d, q.sets) && q.table.number == 0
        && q.log == p.log + [ServoInit] && !q.announced && q.recordUpdate == p.recordUpdate
  {
    hide Started, Stopped;
  }

  /** A port that enters LISTENING from elsewhere will announce itself at once when it next leads; others keep that. */
  lemma AnnouncesAgainIff(p: Port, c: Config, s: PortState)
    ensures ToState(p, c, s).announced <==> p.announced && (s == Listening ==> p.state == Listening)
  {
    hide Stopped, Started;
  }

  /** The first Sync of a master, and no later one, starts the request timer of the mechanism, with its interval. */
  lemma FirstSyncStartsRequestsIff(p: Port, c: Config, h: Header, origin: Time, stamp: Time)
    requires HandleSync(p, c, h, origin, stamp).log != p.log
    ensures var q := HandleSync(p, c, h, origin, stamp);
      && !q.pair.waitingForFirstSync
      && q.bank == if !p.pair.waitingForFirstSync || c.mechanism == Servo.Disabled then p.bank
                   else if c.mechanism == Servo.E2E then
                     Started(p.bank, DELAYREQ_INTERVAL, c.ticksOf(p.pair.logMinDelayReqInterval))
                   else Started(p.bank, PDELAYREQ_INTERVAL, c.pdelayTicks)
  {
    hide Started;
  }

  // ---- One-step exchanges

  /** A one-step Sync of the parent: one offset update, with the origin it carries. */
  lemma OneStepSync(p: Port, c: Config, h: Header, origin: Time, stamp: Time)
    requires p.state == Slave && FromParent(p, h.sender) && h.sender != OwnPort(p, c) && !h.twoStep
    ensures HandleSync(p, c, h, origin, stamp).log ==
      p.log + [SyncHeard(h.sender, h.sequence, stamp, h.correction, false)]
            + [OffsetUpdate(h.sender, h.sequence, origin, stamp, h.correction, None)]
  {
    hide Started;
  }

  /** Whatever transparent clocks added to it, the servo then sees path delay plus offset. */
  lemma OneStepSyncRecovers(p: Port, c: Config, h: Header, origin: Time, stamp: Time, delay: int, ahead: int)
    requires p.state == Slave && FromParent(p, h.sender) && h.sender != OwnPort(p, c) && !h.twoStep
    requires Nanos(stamp) == Nanos(origin) + delay + Nanos(h.correction) + ahead
    ensures var log := HandleSync(p, c, h, origin, stamp).log;
      log != [] && Last(log).OffsetUpdate?
      && Servo.DelayMS(Last(log).send, Last(log).received, Last(log).correction) == FromNanos(delay + ahead)
  {
    hide Nanos, FromNanos, Servo.DelayMS, HandleSync;
    OneStepSync(p, c, h, origin, stamp);
    Servo.SyncRecovery(origin, stamp, h.correction, delay, ahead);
  }

  /** A one-step peer exchange: the mean of the two delays, if the correction carries the turnaround. */
  lemma OneStepPeerExchangeRecovers(p: Port, c: Config, input: Input, h: Header, receipt: Time, stamp: Time, out: int,
                                    back: int)
    requires Measuring(p.state) && input.pdelayReqSent && input.txStamp.Some?
    requires h.sequence == p.pair.sentPDelayReqSequenceId < 0xFFFF && !h.twoStep
    requires Nanos(stamp) == Nanos(Sum(input.txStamp.value, c.outboundLatency)) + out + back + Nanos(h.correction)
    ensures var q := HandlePDelayResp(IssuePDelayReq(p, c, input), c, h, OwnPort(p, c), receipt, stamp);
      && |q.log| == |p.log| + 1 && Last(q.log).PeerDelayUpdate? && !Last(q.log).twoStep
      && Servo.RawPeerDelay(Last(q.log).times, Last(q.log).correction, false) == FromNanos(Quot(out + back, 2))
  {
    hide Sum, Nanos, FromNanos, Quot, Servo.RawPeerDelay;
    var q := HandlePDelayResp(IssuePDelayReq(p, c, input), c, h, OwnPort(p, c), receipt, stamp);
    Servo.OneStepPeerRecovery(Last(q.log).times, h.correction, out, back);
  }

  /** A two-step one: the same, whatever the responder's clock shows. */
  lemma TwoStepPeerExchangeRecovers(times: Servo.PeerTimes, first: Time, second: Time, out: int, back: int, peer: int)
    requires Nanos(times.reqRecv) == Nanos(times.reqSend) + out + peer
    requires Nanos(times.respRecv) == Nanos(times.respSend) + back + Nanos(first) + Nanos(second) - peer
    ensures Servo.RawPeerDelay(times, Sum(first, second), true) == FromNanos(Quot(out + back, 2))
  {
    hide Sum, Nanos, FromNanos, Quot, Servo.RawPeerDelay;
    SumIsExact(first, second);
    ValueOfFromNanos(Nanos(first) + Nanos(second));
    Servo.PeerRecovery(times, Sum(first, second), out, back, peer);
  }

  /** Accepted Announces give a follower's receipt timer its whole interval, and a passive port's those of its parent. */
  lemma AnnounceRestartsReceiptIff(p: Port, c: Config, r: Record)
    requires InBounds(p.table) && ValidBank(p.bank)
    ensures var b := HandleAnnounce(p, c, r).bank;
      if p.state == Slave || p.state == Uncalibrated || (p.state == Passive && p.sets.parent.parent == r.sender) then
        if r.sender == PortIdentity(p.d.identity, c.portNumber) then b == p.bank
        else
          && ValidBank(b) && b.elapsed == p.bank.elapsed
          && b.timers[ANNOUNCE_RECEIPT] == IntervalTimer(AtLeastOne(c.receiptTicks), AtLeastOne(c.receiptTicks), false)
          && forall i :: 0 <= i < TIMER_ARRAY_SIZE && i != ANNOUNCE_RECEIPT ==> b.timers[i] == p.bank.timers[i]
      else b == p.bank
  {
    hide Added, Refreshed, Bmc.FollowRecord;
  }

  // ---- A new slave

  /** Two records of earlier exchanges that may differ in all but sequence ids, stored corrections and interval. */
  predicate SameIds(a: Pairing, b: Pairing) {
    && a.recvSyncSequenceId == b.recvSyncSequenceId && a.syncReceiveTime == b.syncReceiveTime
    && a.lastSyncCorrection == b.lastSyncCorrection && a.sentDelayReqSequenceId == b.sentDelayReqSequenceId
    && a.logMinDelayReqInterval == b.logMinDelayReqInterval && a.lastPDelayCorrection == b.lastPDelayCorrection
    && a.sentPDelayReqSequenceId == b.sentPDelayReqSequenceId && a.recvPDelayRespSequenceId == b.recvPDelayRespSequenceId
  }

  /** Entering SLAVE forgets all times and all expectations of earlier exchanges, and nothing else of them. */
  lemma NewSlaveForgets(p: Port, c: Config, other: Pairing)
    ensures var q := ToState(p, c, Slave);
      && q.state == Slave && SameIds(p.pair, q.pair) && q.pair.waitingForFirstSync
      && !q.pair.waitingForFollow && !q.pair.waitingForDelayResp && Nanos(q.pair.delayReqSendTime) == 0
      && Nanos(q.pair.peer.reqSend) == Nanos(q.pair.peer.reqRecv) == 0
      && Nanos(q.pair.peer.respSend) == Nanos(q.pair.peer.respRecv) == 0
      && (q.pair == ToState(p.(pair := other), c, Slave).pair <==> SameIds(p.pair, other))
  {
    hide Started, Stopped;
  }

  lemma LeaveKeepsSize(p: Port, c: Config)
    ensures |Leave(p, c).bank.timers| == |p.bank.timers|
  {}

  /** It starts the two timers that every slave has. */
  lemma NewSlaveTimers(p: Port, c: Config)
    requires |p.bank.timers| == TIMER_ARRAY_SIZE
    ensures var t, operator, receipt := ToState(p, c, Slave).bank.timers, AtLeastOne(c.operatorTicks), AtLeastOne(c.receiptTicks);
      && |t| == TIMER_ARRAY_SIZE && t[OPERATOR_MESSAGES] == IntervalTimer(operator, operator, false)
      && t[ANNOUNCE_RECEIPT] == IntervalTimer(receipt, receipt, false)
  {
    hide Leave;
    LeaveKeepsSize(p, c);
  }

  /** So no Follow_Up and no Delay_Resp of before its entry moves its clock. */
  lemma NewSlaveIgnoresOldAnswers(p: Port, c: Config, h: Header, requester: PortIdentity, t: Time)
    ensures var q := ToState(p, c, Slave); HandleFollowUp(q, c, h, t) == q && HandleDelayResp(q, c, h, requester, t) == q
  {
    hide ToState;
    NewSlaveForgets(p, c, p.pair);
  }
}
