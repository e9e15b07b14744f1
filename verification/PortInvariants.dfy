/** What every run of the port state machine keeps. */
module PortInvariants {
  import opened Bits
  import opened TimeArith
  import opened DataSets
  import opened Timers
  import opened ForeignMasters
  import opened Port
  import Bmc
  import Servo

  // ---- Timers follow states

  predicate Regular(s: PortState) { s == Initializing || s == Faulty || Deciding(s) }

  predicate Expecting(s: PortState) { s == Listening || s == Slave || s == Passive }

  predicate Allowed(o: Bmc.Options, s: PortState) {
    Regular(s) && (o.slaveOnly ==> s != Master && s != Passive)
  }

  /** The states in which peer delay is measured at intervals: a slave only does so from its first Sync on. */
  predicate Probing(c: Config, s: PortState, waitingForFirstSync: bool) {
    s == Master || s == Passive || (s == Slave && c.mechanism == Servo.P2P && !waitingForFirstSync)
  }

  /** The interval of each timer, zero where it does not run. */
  predicate Profile(b: Bank, c: Config, s: PortState, probing: bool) {
    && ValidBank(b)
    && IntervalOf(b, SYNC_INTERVAL) == (if s == Master then AtLeastOne(c.syncTicks) else 0)
    && IntervalOf(b, ANNOUNCE_INTERVAL) == (if s == Master then AtLeastOne(c.announceTicks) else 0)
    && IntervalOf(b, ANNOUNCE_RECEIPT) == (if s == Listening then AtLeastOne(c.listeningTicks)
                                           else if Expecting(s) then AtLeastOne(c.receiptTicks) else 0)
    && IntervalOf(b, PDELAYREQ_INTERVAL) == (if probing then AtLeastOne(c.pdelayTicks) else 0)
  }

  lemma ProfileArms(b: Bank, c: Config, s: PortState, probing: bool)
    requires Profile(b, c, s, probing)
    ensures ValidBank(b)
    ensures Armed(b, SYNC_INTERVAL) <==> s == Master
    ensures Armed(b, ANNOUNCE_INTERVAL) <==> s == Master
    ensures Armed(b, ANNOUNCE_RECEIPT) <==> Expecting(s)
    ensures Armed(b, PDELAYREQ_INTERVAL) <==> probing
  {}

  /**
   * Sync and Announce timers run exactly in MASTER, the receipt timer exactly in LISTENING, SLAVE and PASSIVE, and the
   * peer delay timer exactly where peer delay is measured, each with its configured interval.
   */
  predicate Timed(p: Port, c: Config) {
    Allowed(p.o, p.state) && Profile(p.bank, c, p.state, Probing(c, p.state, p.pair.waitingForFirstSync))
  }

  lemma StopKeeps(b: Bank, i: nat)
    requires ValidBank(b) && i < TIMER_ARRAY_SIZE
    ensures ValidBank(Stopped(b, i)) && IntervalOf(Stopped(b, i), i) == 0
    ensures forall k: nat :: k != i ==> IntervalOf(Stopped(b, i), k) == IntervalOf(b, k)
  {}

  lemma StartKeeps(b: Bank, i: nat, ticks: nat)
    requires ValidBank(b) && i < TIMER_ARRAY_SIZE
    ensures ValidBank(Started(b, i, ticks)) && IntervalOf(Started(b, i, ticks), i) == AtLeastOne(ticks)
    ensures forall k: nat :: k != i ==> IntervalOf(Started(b, i, ticks), k) == IntervalOf(b, k)
  {}

  lemma PollKeeps(b: Bank, alarms: nat, i: nat)
    requires ValidBank(b)
    ensures var r := Polled(b.(elapsed := b.elapsed + alarms), i).0;
      ValidBank(r) && forall k: nat :: IntervalOf(r, k) == IntervalOf(b, k)
  {}

  lemma LeaveDisarms(p: Port, c: Config)
    requires Timed(p, c)
    ensures var b := Leave(p, c).bank;
      ValidBank(b) && IntervalOf(b, SYNC_INTERVAL) == 0 && IntervalOf(b, ANNOUNCE_INTERVAL) == 0 && IntervalOf(b, ANNOUNCE_RECEIPT) == 0
      && IntervalOf(b, PDELAYREQ_INTERVAL) == 0
  {
    hide Stopped, ValidBank, IntervalOf;
    var b := p.bank;
    match p.state {
      case Master =>
        StopKeeps(b, SYNC_INTERVAL);
        StopKeeps(Stopped(b, SYNC_INTERVAL), ANNOUNCE_INTERVAL);
        StopKeeps(Stopped(Stopped(b, SYNC_INTERVAL), ANNOUNCE_INTERVAL), PDELAYREQ_INTERVAL);
      case Slave =>
        StopKeeps(b, ANNOUNCE_RECEIPT);
        StopKeeps(Stopped(b, ANNOUNCE_RECEIPT), DELAYREQ_INTERVAL);
        StopKeeps(Stopped(b, ANNOUNCE_RECEIPT), PDELAYREQ_INTERVAL);
      case Passive =>
        StopKeeps(b, PDELAYREQ_INTERVAL);
        StopKeeps(Stopped(b, PDELAYREQ_INTERVAL), ANNOUNCE_RECEIPT);
      case Listening => StopKeeps(b, ANNOUNCE_RECEIPT);
      case _ =>
    }
  }

  lemma EnterArms(p: Port, c: Config, s: PortState)
    requires ValidBank(p.bank) && IntervalOf(p.bank, SYNC_INTERVAL) == 0 && IntervalOf(p.bank, ANNOUNCE_INTERVAL) == 0
    requires IntervalOf(p.bank, ANNOUNCE_RECEIPT) == 0 && IntervalOf(p.bank, PDELAYREQ_INTERVAL) == 0 && Regular(s)
    ensures var q := Enter(p, c, s); Profile(q.bank, c, s, Probing(c, s, q.pair.waitingForFirstSync))
  {
    hide Stopped, Started, ValidBank, IntervalOf;
    var b := p.bank;
    match s {
      case Listening =>
        StopKeeps(b, SYNC_INTERVAL);
        var b1 := Stopped(b, SYNC_INTERVAL);
        StopKeeps(b1, ANNOUNCE_INTERVAL);
        var b2 := Stopped(b1, ANNOUNCE_INTERVAL);
        StopKeeps(b2, PDELAYREQ_INTERVAL);
        var b3 := Stopped(b2, PDELAYREQ_INTERVAL);
        StopKeeps(b3, DELAYREQ_INTERVAL);
        StartKeeps(Stopped(b3, DELAYREQ_INTERVAL), ANNOUNCE_RECEIPT, c.listeningTicks);
      case Master =>
        StartKeeps(b, SYNC_INTERVAL, c.syncTicks);
        var b1 := Started(b, SYNC_INTERVAL, c.syncTicks);
        StartKeeps(b1, ANNOUNCE_INTERVAL, c.announceTicks);
        StartKeeps(Started(b1, ANNOUNCE_INTERVAL, c.announceTicks), PDELAYREQ_INTERVAL, c.pdelayTicks);
      case Passive =>
        StartKeeps(b, PDELAYREQ_INTERVAL, c.pdelayTicks);
        StartKeeps(Started(b, PDELAYREQ_INTERVAL, c.pdelayTicks), ANNOUNCE_RECEIPT, c.receiptTicks);
      case Slave =>
        StartKeeps(b, OPERATOR_MESSAGES, c.operatorTicks);
        StartKeeps(Started(b, OPERATOR_MESSAGES, c.operatorTicks), ANNOUNCE_RECEIPT, c.receiptTicks);
      case _ =>
    }
  }

  lemma ToStateTimed(p: Port, c: Config, s: PortState)
    requires Timed(p, c) && Allowed(p.o, s)
    ensures Timed(ToState(p, c, s), c) && ToState(p, c, s).o == p.o
  {
    hide Enter, Leave, Profile;
    LeaveDisarms(p, c);
    LeaveKeeps(p, c);
    EnterArms(Leave(p, c), c, s);
    EnterKeeps(Leave(p, c), c, s);
  }

  /** Faulty is allowed to every clock. */
  lemma FaultTimed(p: Port, c: Config)
    requires Timed(p, c)
    ensures Timed(ToState(p, c, Faulty), c) && ToState(p, c, Faulty).o == p.o
  {
    hide ToState, Profile;
    ToStateTimed(p, c, Faulty);
  }

  lemma PollTimed(p: Port, c: Config, timer: nat, alarms: nat)
    requires Timed(p, c)
    ensures Timed(PollTimer(p, timer, alarms).0, c) && PollTimer(p, timer, alarms).0.o == p.o
  {
    hide Polled, IntervalOf, ValidBank;
    PollKeeps(p.bank, alarms, timer);
  }

  lemma OtherStartTimed(p: Port, c: Config, i: nat, ticks: nat)
    requires Timed(p, c)
    requires i == DELAYREQ_INTERVAL || (i == ANNOUNCE_RECEIPT && (p.state == Slave || p.state == Passive) && ticks == c.receiptTicks)
    ensures Profile(Started(p.bank, i, ticks), c, p.state, Probing(c, p.state, p.pair.waitingForFirstSync))
  {
    hide Started, IntervalOf, ValidBank;
    StartKeeps(p.bank, i, ticks);
  }

  lemma FirstSyncTimed(p: Port, c: Config, ticks: nat)
    requires Timed(p, c) && ticks == c.pdelayTicks
    ensures Profile(Started(p.bank, PDELAYREQ_INTERVAL, ticks), c, p.state, true)
  {
    hide Started, IntervalOf, ValidBank;
    StartKeeps(p.bank, PDELAYREQ_INTERVAL, ticks);
  }

  lemma SyncTimed(p: Port, c: Config, h: Header, origin: Time, stamp: Time)
    requires Timed(p, c)
    ensures Timed(HandleSync(p, c, h, origin, stamp), c)
    ensures HandleSync(p, c, h, origin, stamp).o == p.o
  {
    hide Profile, Started;
    OtherStartTimed(p, c, DELAYREQ_INTERVAL, c.ticksOf(p.pair.logMinDelayReqInterval));
    FirstSyncTimed(p, c, c.pdelayTicks);
  }

  lemma AnnounceTimed(p: Port, c: Config, r: Record)
    requires Timed(p, c) && InBounds(p.table)
    ensures Timed(HandleAnnounce(p, c, r), c) && HandleAnnounce(p, c, r).o == p.o
  {
    hide Profile, Started, Bmc.FollowRecord, Refreshed, Added;
    if p.state == Slave || p.state == Passive {
      OtherStartTimed(p, c, ANNOUNCE_RECEIPT, c.receiptTicks);
    }
  }

  lemma HandleMessageTimed(p: Port, c: Config, m: Message, input: Input)
    requires Timed(p, c) && InBounds(p.table)
    ensures Timed(HandleMessage(p, c, m, input), c) && HandleMessage(p, c, m, input).o == p.o
  {
    hide Profile, HandleAnnounce, HandleSync, ToState, Sum;
    FaultTimed(p, c);
    match m {
      case AnnounceMsg(r) => AnnounceTimed(p, c, r);
      case SyncMsg(h, origin, stamp) => SyncTimed(p, c, h, origin, stamp);
      case _ =>
    }
  }

  lemma HandleTimed(p: Port, c: Config, input: Input)
    requires Timed(p, c) && InBounds(p.table)
    ensures Timed(Handle(p, c, input), c) && Handle(p, c, input).o == p.o
  {
    hide Profile, HandleMessage, ToState;
    FaultTimed(p, c);
    if input.received.Got? {
      HandleMessageTimed(p, c, input.received.m, input);
    }
  }

  lemma IssueTimed(p: Port, c: Config, input: Input, sent: bool)
    requires Timed(p, c)
    ensures Timed(Issue(p, c, sent), c) && Timed(IssueDelayReq(p, c, input), c) && Timed(IssuePDelayReq(p, c, input), c)
    ensures Issue(p, c, sent).o == IssueDelayReq(p, c, input).o == IssuePDelayReq(p, c, input).o == p.o
  {
    hide Profile, Started, ToState, Sum;
    FaultTimed(p, c);
    OtherStartTimed(p, c, DELAYREQ_INTERVAL, input.delayTicks);
  }

  lemma DecisionTimed(p: Port, c: Config)
    requires Timed(p, c) && InBounds(p.table)
    ensures Timed(StateDecision(p, c), c) && StateDecision(p, c).o == p.o
  {
    hide Profile, ToState, Bmc.Compare, Bmc.FollowRecord, Bmc.BecomeMaster, Bmc.OwnRecord, Bmc.Best;
    if p.recordUpdate && Deciding(p.state) {
      var (decided, sets, best) :=
        Bmc.Exec(p.state, p.d, p.o, RecordsOf(p.table), p.table.number, p.table.best, RecordsOf(p.table)[0], p.sets);
      ToStateTimed(p.(recordUpdate := false, sets := sets, table := p.table.(best := best)), c, decided);
    }
  }

  lemma TimeoutTimed(p: Port, c: Config)
    requires Timed(p, c)
    ensures Timed(AnnounceTimeout(p, c), c) && AnnounceTimeout(p, c).o == p.o
  {
    hide Profile, ToState, Bmc.BecomeMaster;
    var q := p.(table := Emptied(p.table));
    if SlaveOnlyClock(p) {
      ToStateTimed(q, c, Listening);
    } else {
      ToStateTimed(q.(sets := Bmc.BecomeMaster(p.d, p.o, p.sets)), c, Master);
    }
  }

  lemma SlaveTimersTimed(p: Port, c: Config, input: Input)
    requires Timed(p, c)
    ensures Timed(SlaveTimers(p, c, input), c) && SlaveTimers(p, c, input).o == p.o
  {
    hide Timed, PollTimer, AnnounceTimeout, IssueDelayReq, IssuePDelayReq;
    PollTimed(p, c, ANNOUNCE_RECEIPT, input.alarms.0);
    var (p1, receipt) := PollTimer(p, ANNOUNCE_RECEIPT, input.alarms.0);
    TimeoutTimed(p1, c);
    var p2 := if receipt then AnnounceTimeout(p1, c) else p1;
    PollTimed(p2, c, OPERATOR_MESSAGES, input.alarms.1);
    var p3 := PollTimer(p2, OPERATOR_MESSAGES, input.alarms.1).0;
    PollTimed(p3, c, DELAYREQ_INTERVAL, input.alarms.2);
    IssueTimed(PollTimer(p3, DELAYREQ_INTERVAL, input.alarms.2).0, c, input, true);
    PollTimed(p3, c, PDELAYREQ_INTERVAL, input.alarms.2);
    IssueTimed(PollTimer(p3, PDELAYREQ_INTERVAL, input.alarms.2).0, c, input, true);
  }

  lemma AnnouncedTimed(p: Port, c: Config)
    requires Timed(p, c)
    ensures Timed(p.(announced := true), c)
  {
    hide Profile;
  }

  lemma MasterMessagesTimed(p: Port, c: Config, input: Input)
    requires Timed(p, c)
    ensures Timed(MasterMessages(p, c, input), c) && MasterMessages(p, c, input).o == p.o
  {
    hide Timed, PollTimer, Issue;
    IssueTimed(p, c, input, input.announceSent);
    AnnouncedTimed(Issue(p, c, input.announceSent), c);
    var p0 := if p.announced then p else Issue(p, c, input.announceSent).(announced := true);
    PollTimed(p0, c, SYNC_INTERVAL, input.alarms.0);
    var (p1, sync) := PollTimer(p0, SYNC_INTERVAL, input.alarms.0);
    IssueTimed(p1, c, input, input.syncSent);
    var p2 := if sync then Issue(p1, c, input.syncSent) else p1;
    PollTimed(p2, c, ANNOUNCE_INTERVAL, input.alarms.1);
    var (p3, announce) := PollTimer(p2, ANNOUNCE_INTERVAL, input.alarms.1);
    IssueTimed(p3, c, input, input.announceSent);
  }

  lemma MasterTimersTimed(p: Port, c: Config, input: Input)
    requires Timed(p, c)
    ensures Timed(MasterTimers(p, c, input), c) && MasterTimers(p, c, input).o == p.o
  {
    hide Timed, PollTimer, MasterMessages, IssuePDelayReq;
    MasterMessagesTimed(p, c, input);
    var p4 := MasterMessages(p, c, input);
    PollTimed(p4, c, PDELAYREQ_INTERVAL, input.alarms.2);
    IssueTimed(PollTimer(p4, PDELAYREQ_INTERVAL, input.alarms.2).0, c, input, true);
  }

  lemma DoStateTimed(p: Port, c: Config, input: Input)
    requires Timed(p, c) && InBounds(p.table)
    ensures Timed(DoState(p, c, input), c)
  {
    hide Profile, StateDecision, ToState, Handle, SlaveTimers, MasterTimers;
    DecisionTimed(p, c);
    DecisionInBounds(p, c);
    var q := StateDecision(p, c);
    HandleTimed(q, c, input);
    SlaveTimersTimed(Handle(q, c, input), c, input);
    ToStateTimed(q, c, Initializing);
    if q.state == Master {
      MasterTimersTimed(q, c, input);
      TimersKeepTable(q, c, input);
      HandleTimed(MasterTimers(q, c, input), c, input);
      ToStateTimed(Handle(MasterTimers(q, c, input), c, input), c, Listening);
    }
  }

  lemma ClearedTicksKeep(b: Bank)
    requires ValidBank(b)
    ensures ValidBank(b.(elapsed := 0)) && forall k: nat :: IntervalOf(b.(elapsed := 0), k) == IntervalOf(b, k)
  {}

  lemma DoInitTimed(p: Port, c: Config, input: Input)
    requires Timed(p, c)
    ensures Timed(DoInit(p, c, input), c)
  {
    hide ToState, IntervalOf, ValidBank, Bmc.BecomeMaster;
    FaultTimed(p, c);
    ClearedTicksKeep(p.bank);
    var (d, o) := Bmc.InitDefault(p.o, p.d.identity);
    ToStateTimed(p.(d := d, o := o, table := Reinitialized(p.table), bank := p.bank.(elapsed := 0),
                    log := p.log + [ServoInit], sets := Bmc.BecomeMaster(d, o, p.sets)), c, Listening);
  }

  // ---- The foreign-master table

  predicate HoldsParent(t: Table, sets: Sets)
    requires InBounds(t)
  {
    t.number > 0 ==> t.best < t.number && sets.parent.parent == t.entries[t.best].record.sender
  }

  /** Between decisions the table can be scanned, and a port that follows a master follows its best record. */
  predicate Tidy(p: Port) {
    && Proper(p.table)
    && (!p.recordUpdate ==> Scannable(p.table))
    && (!p.recordUpdate && (p.state == Slave || p.state == Passive) ==> HoldsParent(p.table, p.sets))
  }

  /** Changing to a state that follows nobody cannot hurt. */
  lemma ToStateTidy(p: Port, c: Config, s: PortState)
    requires Proper(p.table) && (!p.recordUpdate ==> Scannable(p.table))
    requires s != PreMaster && ((s == Slave || s == Passive) && !p.recordUpdate ==> HoldsParent(p.table, p.sets))
    ensures Tidy(ToState(p, c, s)) && ToState(p, c, s).recordUpdate == p.recordUpdate
  {
    hide ToState, Proper;
    ToStateKeeps(p, c, s);
  }

  lemma HandleMessageTidy(p: Port, c: Config, m: Message, input: Input)
    requires Tidy(p) && !p.recordUpdate && Regular(p.state)
    ensures Tidy(HandleMessage(p, c, m, input))
  {
    hide Started, Bmc.FollowRecord, ToState, Sum, Added, Refreshed, Proper;
    ToStateTidy(p, c, Faulty);
    if m.AnnounceMsg? {
      AddedIsProper(p.table, m.record);
      ProperIsInBounds(p.table);
      if p.state == Slave && FromParent(p, m.record.sender) {
        RefreshedIsProper(p.table, m.record);
      }
      AnnounceTidy(p, c, m.record);
    }
  }

  lemma ProperIsInBounds(t: Table)
    requires Proper(t)
    ensures InBounds(t)
  {}

  lemma AnnounceTidy(p: Port, c: Config, r: Record)
    requires Tidy(p) && !p.recordUpdate && Proper(Added(p.table, r))
    requires p.state == Slave && FromParent(p, r.sender) ==> Proper(Refreshed(p.table, r))
    requires p.state != Uncalibrated
    ensures Tidy(HandleAnnounce(p, c, r))
  {
    hide Started, Bmc.FollowRecord, Added, Refreshed, Proper;
  }

  lemma HandleTidy(p: Port, c: Config, input: Input)
    requires Tidy(p) && !p.recordUpdate && Regular(p.state)
    ensures Tidy(Handle(p, c, input))
  {
    hide HandleMessage, ToState, Proper;
    ToStateTidy(p, c, Faulty);
    ProperIsInBounds(p.table);
    if input.received.Got? {
      HandleMessageTidy(p, c, input.received.m, input);
    }
  }

  lemma IssueTidy(p: Port, c: Config, input: Input, sent: bool)
    requires Tidy(p)
    ensures Tidy(Issue(p, c, sent)) && Tidy(IssueDelayReq(p, c, input)) && Tidy(IssuePDelayReq(p, c, input))
  {
    hide Started, ToState, Sum, Proper;
    ToStateTidy(p, c, Faulty);
  }

  lemma PollTidy(p: Port, timer: nat, alarms: nat)
    requires Tidy(p)
    ensures Tidy(PollTimer(p, timer, alarms).0)
  {
    hide Polled, Proper;
  }

  lemma TimeoutTidy(p: Port, c: Config)
    requires Tidy(p)
    ensures Tidy(AnnounceTimeout(p, c))
  {
    hide ToState, Bmc.BecomeMaster, Proper, Emptied;
    ProperIsInBounds(p.table);
    EmptiedIsProper(p.table);
    var q := p.(table := Emptied(p.table));
    if SlaveOnlyClock(p) {
      ToStateTidy(q, c, Listening);
    } else {
      ToStateTidy(q.(sets := Bmc.BecomeMaster(p.d, p.o, p.sets)), c, Master);
    }
  }

  lemma SlaveTimersTidy(p: Port, c: Config, input: Input)
    requires Tidy(p)
    ensures Tidy(SlaveTimers(p, c, input))
  {
    hide Tidy, PollTimer, AnnounceTimeout, IssueDelayReq, IssuePDelayReq;
    PollTidy(p, ANNOUNCE_RECEIPT, input.alarms.0);
    var (p1, receipt) := PollTimer(p, ANNOUNCE_RECEIPT, input.alarms.0);
    TimeoutTidy(p1, c);
    var p2 := if receipt then AnnounceTimeout(p1, c) else p1;
    PollTidy(p2, OPERATOR_MESSAGES, input.alarms.1);
    var p3 := PollTimer(p2, OPERATOR_MESSAGES, input.alarms.1).0;
    PollTidy(p3, DELAYREQ_INTERVAL, input.alarms.2);
    IssueTidy(PollTimer(p3, DELAYREQ_INTERVAL, input.alarms.2).0, c, input, true);
    PollTidy(p3, PDELAYREQ_INTERVAL, input.alarms.2);
    IssueTidy(PollTimer(p3, PDELAYREQ_INTERVAL, input.alarms.2).0, c, input, true);
  }

  lemma AnnouncedTidy(p: Port)
    requires Tidy(p)
    ensures Tidy(p.(announced := true))
  {
    hide Proper;
  }

  lemma MasterMessagesTidy(p: Port, c: Config, input: Input)
    requires Tidy(p)
    ensures Tidy(MasterMessages(p, c, input))
  {
    hide Tidy, PollTimer, Issue;
    IssueTidy(p, c, input, input.announceSent);
    AnnouncedTidy(Issue(p, c, input.announceSent));
    var p0 := if p.announced then p else Issue(p, c, input.announceSent).(announced := true);
    PollTidy(p0, SYNC_INTERVAL, input.alarms.0);
    var (p1, sync) := PollTimer(p0, SYNC_INTERVAL, input.alarms.0);
    IssueTidy(p1, c, input, input.syncSent);
    var p2 := if sync then Issue(p1, c, input.syncSent) else p1;
    PollTidy(p2, ANNOUNCE_INTERVAL, input.alarms.1);
    var (p3, announce) := PollTimer(p2, ANNOUNCE_INTERVAL, input.alarms.1);
    IssueTidy(p3, c, input, input.announceSent);
  }

  lemma MasterTimersTidy(p: Port, c: Config, input: Input)
    requires Tidy(p)
    ensures Tidy(MasterTimers(p, c, input)) && MasterTimers(p, c, input).recordUpdate == p.recordUpdate
  {
    hide Tidy, PollTimer, MasterMessages, IssuePDelayReq;
    MasterMessagesTidy(p, c, input);
    var p4 := MasterMessages(p, c, input);
    PollTidy(p4, PDELAYREQ_INTERVAL, input.alarms.2);
    IssueTidy(PollTimer(p4, PDELAYREQ_INTERVAL, input.alarms.2).0, c, input, true);
    MasterTimersKeepUpdate(p, c, input);
  }

  lemma IssueKeepsUpdate(p: Port, c: Config, input: Input, sent: bool)
    ensures Issue(p, c, sent).recordUpdate == p.recordUpdate && IssuePDelayReq(p, c, input).recordUpdate == p.recordUpdate
  {
    hide ToState, Sum;
    ToStateKeeps(p, c, Faulty);
  }

  lemma PollKeepsUpdate(p: Port, timer: nat, alarms: nat)
    ensures PollTimer(p, timer, alarms).0.recordUpdate == p.recordUpdate
  {
    hide Polled;
  }

  lemma MasterMessagesKeepUpdate(p: Port, c: Config, input: Input)
    ensures MasterMessages(p, c, input).recordUpdate == p.recordUpdate
  {
    hide PollTimer, Issue;
    IssueKeepsUpdate(p, c, input, input.announceSent);
    var p0 := if p.announced then p else Issue(p, c, input.announceSent).(announced := true);
    PollKeepsUpdate(p0, SYNC_INTERVAL, input.alarms.0);
    var (p1, sync) := PollTimer(p0, SYNC_INTERVAL, input.alarms.0);
    IssueKeepsUpdate(p1, c, input, input.syncSent);
    var p2 := if sync then Issue(p1, c, input.syncSent) else p1;
    PollKeepsUpdate(p2, ANNOUNCE_INTERVAL, input.alarms.1);
    var (p3, announce) := PollTimer(p2, ANNOUNCE_INTERVAL, input.alarms.1);
    IssueKeepsUpdate(p3, c, input, input.announceSent);
  }

  lemma MasterTimersKeepUpdate(p: Port, c: Config, input: Input)
    ensures MasterTimers(p, c, input).recordUpdate == p.recordUpdate
  {
    hide PollTimer, MasterMessages, IssuePDelayReq;
    MasterMessagesKeepUpdate(p, c, input);
    var p4 := MasterMessages(p, c, input);
    PollKeepsUpdate(p4, PDELAYREQ_INTERVAL, input.alarms.2);
    IssueKeepsUpdate(PollTimer(p4, PDELAYREQ_INTERVAL, input.alarms.2).0, c, input, true);
  }

  lemma ExecFollowsBest(p: Port)
    requires InBounds(p.table)
    ensures var (decided, sets, best) :=
        Bmc.Exec(p.state, p.d, p.o, RecordsOf(p.table), p.table.number, p.table.best, RecordsOf(p.table)[0], p.sets);
      && best < |p.table.entries| && decided != PreMaster
      && (p.table.number > 0 ==> best < p.table.number)
      && (decided == Slave || decided == Passive ==> sets.parent.parent == p.table.entries[best].record.sender)
  {
    hide Bmc.Compare, Bmc.BecomeMaster, Bmc.OwnRecord, Bmc.Best;
  }

  lemma BestKeepsProper(t: Table, best: nat)
    requires Proper(t) && best < |t.entries|
    ensures Proper(t.(best := best))
  {}

  lemma DecisionTidy(p: Port, c: Config)
    requires Tidy(p)
    ensures InBounds(p.table) && Tidy(StateDecision(p, c))
    ensures Deciding(p.state) ==> !StateDecision(p, c).recordUpdate
  {
    hide Proper, ToState, Bmc.Exec, RecordsOf;
    ProperIsInBounds(p.table);
    if p.recordUpdate && Deciding(p.state) {
      ExecFollowsBest(p);
      var (decided, sets, best) :=
        Bmc.Exec(p.state, p.d, p.o, RecordsOf(p.table), p.table.number, p.table.best, RecordsOf(p.table)[0], p.sets);
      BestKeepsProper(p.table, best);
      ToStateTidy(p.(recordUpdate := false, sets := sets, table := p.table.(best := best)), c, decided);
    }
  }

  /** A decision leaves the port in a regular state, with the update flag down if the port goes on to handle messages. */
  lemma DecisionClearsUpdate(p: Port, c: Config)
    requires Tidy(p) && Timed(p, c)
    ensures InBounds(p.table) && Timed(StateDecision(p, c), c) && Tidy(StateDecision(p, c))
    ensures Deciding(StateDecision(p, c).state) ==> !StateDecision(p, c).recordUpdate
  {
    hide StateDecision, Profile;
    ProperIsInBounds(p.table);
    DecisionTimed(p, c);
    DecisionTidy(p, c);
    if !Deciding(p.state) {
      UndecidedUnchanged(p, c);
    }
  }

  lemma UndecidedUnchanged(p: Port, c: Config)
    requires InBounds(p.table) && !Deciding(p.state)
    ensures StateDecision(p, c) == p
  {}

  lemma DoStateTidy(p: Port, c: Config, input: Input)
    requires Tidy(p) && Timed(p, c)
    ensures InBounds(p.table) && Tidy(DoState(p, c, input))
  {
    hide Profile, StateDecision, ToState, Handle, SlaveTimers, MasterTimers, Proper, Tidy;
    DecisionClearsUpdate(p, c);
    DecisionInBounds(p, c);
    var q := StateDecision(p, c);
    TidyToAbsent(q, c, Initializing);
    if Deciding(q.state) {
      if q.state == Master {
        MasterTimersTimed(q, c, input);
        MasterTimersTidy(q, c, input);
        TimersKeepTable(q, c, input);
        var r := MasterTimers(q, c, input);
        HandleTidy(r, c, input);
        TidyToAbsent(Handle(r, c, input), c, Listening);
      } else {
        HandleTidy(q, c, input);
        SlaveTimersTidy(Handle(q, c, input), c, input);
      }
    }
  }

  lemma TidyToAbsent(p: Port, c: Config, s: PortState)
    requires Tidy(p) && s != PreMaster && s != Slave && s != Passive
    ensures Tidy(ToState(p, c, s))
  {
    hide ToState, Proper;
    ToStateTidy(p, c, s);
  }

  lemma DoInitTidy(p: Port, c: Config, input: Input)
    requires Tidy(p) && p.table.slot == 0
    ensures Tidy(DoInit(p, c, input))
  {
    hide ToState, Bmc.BecomeMaster, Proper, Bmc.InitDefault;
    TidyToAbsent(p, c, Faulty);
    ProperIsInBounds(p.table);
    ReinitializedIsProperIff(p.table);
    var (d, o) := Bmc.InitDefault(p.o, p.d.identity);
    ToStateTidy(p.(d := d, o := o, table := Reinitialized(p.table), bank := p.bank.(elapsed := 0),
                   log := p.log + [ServoInit], sets := Bmc.BecomeMaster(d, o, p.sets)), c, Listening);
  }
}
