/** The port state machine of esl/sw/protocol.cpp, one pass of its main loop at a time. */
module Port {
  import opened Bits
  import opened TimeArith
  import opened DataSets
  import opened Timers
  import opened ForeignMasters
  import Bmc
  import Servo

  /** The timer periods in ticks; ticksOf gives those of a power of two of seconds. */
  datatype Config = Config(
    portNumber: UInt16, mechanism: Servo.DelayMechanism, outboundLatency: Time,
    syncTicks: nat, announceTicks: nat, pdelayTicks: nat, receiptTicks: nat, listeningTicks: nat, operatorTicks: nat,
    initialDelayReq: int, subsequentDelayReq: int, ignoreMasterInterval: bool, ticksOf: int -> nat)

  /**
   * What the protocol does to the servo, and what it hears and asks about time. An offset update that a Follow_Up
   * triggers also records the correction of that Follow_Up.
   */
  datatype Action =
    | ServoInit
    | SyncHeard(sender: PortIdentity, sequence: UInt16, received: Time, correction: Time, twoStep: bool)
    | OffsetUpdate(sender: PortIdentity, sequence: UInt16, send: Time, received: Time, correction: Time, followUp: Option<Time>)
    | DelayRequested(sequence: UInt16, sent: Time)
    | BlindDelayRequest(sequence: UInt16)
    | DelayUpdate(sequence: UInt16, send: Time, received: Time, correction: Time)
    | PeerDelayUpdate(times: Servo.PeerTimes, correction: Time, twoStep: bool)

  /** The fields that pair messages with each other, and the interval of the requests. */
  datatype Pairing = Pairing(
    waitingForFollow: bool, recvSyncSequenceId: UInt16, syncReceiveTime: Time, lastSyncCorrection: Time,
    waitingForDelayResp: bool, sentDelayReqSequenceId: UInt16, delayReqSendTime: Time, waitingForFirstSync: bool,
    logMinDelayReqInterval: int, sentPDelayReqSequenceId: UInt16, recvPDelayRespSequenceId: UInt16, peer: Servo.PeerTimes, lastPDelayCorrection: Time)

  datatype Port = Port(
    state: PortState, d: DefaultDS, o: Bmc.Options, sets: Sets, bank: Bank, table: Table,
    recordUpdate: bool, announced: bool, pair: Pairing, log: seq<Action>, heard: seq<Heard>)

  /** An accepted Announce, and whether the table of foreign masters took it. */
  datatype Heard = Heard(record: Record, stored: bool)

  datatype Header = Header(sender: PortIdentity, sequence: UInt16, correction: Time, twoStep: bool, logInterval: int)

  /** Messages after unpacking; an event message carries its precise receive time. */
  datatype Message =
    | AnnounceMsg(record: Record)
    | SyncMsg(h: Header, origin: Time, stamp: Time)
    | FollowUpMsg(h: Header, origin: Time)
    | DelayReqMsg(h: Header)
    | DelayRespMsg(h: Header, requester: PortIdentity, receipt: Time)
    | PDelayReqMsg(h: Header)
    | PDelayRespMsg(h: Header, requester: PortIdentity, receipt: Time, stamp: Time)
    | PDelayRespFollowUpMsg(h: Header, origin: Time)
    | OtherMsg

  datatype Received = Nothing | ReceiveError | ShortHeader | OtherVersionOrDomain | Got(m: Message, short: bool)

  /**
   * The environment of one pass: the network, the interrupts that are counted before each poll (lost ones change
   * nothing), and the random re-arm interval.
   */
  datatype Input = Input(
    netInit: bool, received: Received, replySent: bool, announceSent: bool, syncSent: bool, delayReqSent: bool,
    pdelayReqSent: bool, txStamp: Option<Time>, alarms: (nat, nat, nat), delayTicks: nat)

  // ---- State changes

  function Leave(p: Port, c: Config): Port {
    match p.state {
      case Master =>
        p.(bank := Stopped(Stopped(Stopped(p.bank, SYNC_INTERVAL), ANNOUNCE_INTERVAL), PDELAYREQ_INTERVAL))
      case Slave =>
        var b := Stopped(p.bank, ANNOUNCE_RECEIPT);
        p.(bank := match c.mechanism {
             case E2E => Stopped(b, DELAYREQ_INTERVAL)
             case P2P => Stopped(b, PDELAYREQ_INTERVAL)
             case Disabled => b
           },
           log := p.log + [ServoInit])
      case Passive => p.(bank := Stopped(Stopped(p.bank, PDELAYREQ_INTERVAL), ANNOUNCE_RECEIPT))
      case Listening => p.(bank := Stopped(p.bank, ANNOUNCE_RECEIPT))
      case _ => p
    }
  }

  const ZERO := Time(0, 0)

  /** A new slave has heard and asked nothing. */
  function Restarted(pair: Pairing): Pairing {
    pair.(waitingForFollow := false, waitingForDelayResp := false, delayReqSendTime := ZERO,
          peer := Servo.PeerTimes(ZERO, ZERO, ZERO, ZERO), waitingForFirstSync := true)
  }

  function Enter(p: Port, c: Config, state: PortState): Port {
    match state {
      case Listening =>
        var b := Stopped(Stopped(p.bank, SYNC_INTERVAL), ANNOUNCE_INTERVAL);
        var b' := Stopped(Stopped(b, PDELAYREQ_INTERVAL), DELAYREQ_INTERVAL);
        p.(state := Listening, bank := Started(b', ANNOUNCE_RECEIPT, c.listeningTicks),
           announced := p.announced && p.state == Listening,
           pair := p.pair.(logMinDelayReqInterval := c.initialDelayReq))
      case Master =>
        var b := Started(Started(p.bank, SYNC_INTERVAL, c.syncTicks), ANNOUNCE_INTERVAL, c.announceTicks);
        p.(state := Master, bank := Started(b, PDELAYREQ_INTERVAL, c.pdelayTicks))
      case Passive =>
        var b := Started(Started(p.bank, PDELAYREQ_INTERVAL, c.pdelayTicks), ANNOUNCE_RECEIPT, c.receiptTicks);
        p.(state := Passive, bank := b,
           sets := p.sets.(timeProperties := p.sets.timeProperties.(
             utcOffset := p.o.utcOffset, flags := p.sets.timeProperties.flags.(utcValid := false))))
      case Slave =>
        var b := Started(Started(p.bank, OPERATOR_MESSAGES, c.operatorTicks), ANNOUNCE_RECEIPT, c.receiptTicks);
        p.(state := Slave, bank := b, log := p.log + [ServoInit], pair := Restarted(p.pair))
      case PreMaster => p
      case _ => p.(state := state)
    }
  }

  function ToState(p: Port, c: Config, state: PortState): Port {
    Enter(Leave(p, c), c, state)
  }

  // ---- Received messages

  function OwnPort(p: Port, c: Config): PortIdentity { PortIdentity(p.d.identity, c.portNumber) }

  /** States that ignore all messages. */
  predicate Disregards(s: PortState) { s == Initializing || s == Faulty || s == DisabledState }

  /** States that take time from the parent. */
  predicate Following(s: PortState) { s == Slave || s == Uncalibrated }

  /** States that take part in peer delay measurement. */
  predicate Measuring(s: PortState) { s == Slave || s == Master || s == Passive }

  predicate Deciding(s: PortState) { s == Listening || Measuring(s) }

  predicate FromParent(p: Port, sender: PortIdentity) { p.sets.parent.parent == sender }

  function HandleAnnounce(p: Port, c: Config, r: Record): Port
    requires InBounds(p.table)
  {
    if Disregards(p.state) || r.sender == OwnPort(p, c) then p
    else if Following(p.state) then SlaveAnnounce(p, c, r)
    else if p.state == Passive && FromParent(p, r.sender) then
      p.(recordUpdate := true, sets := Bmc.FollowRecord(p.state, p.o, r, p.sets),
         bank := Started(p.bank, ANNOUNCE_RECEIPT, c.receiptTicks), heard := p.heard + [Heard(r, false)])
    else p.(recordUpdate := true, table := Added(p.table, r), heard := p.heard + [Heard(r, true)])
  }

  function SlaveAnnounce(p: Port, c: Config, r: Record): Port
    requires InBounds(p.table)
  {
    var q := p.(recordUpdate := true, bank := Started(p.bank, ANNOUNCE_RECEIPT, c.receiptTicks),
                heard := p.heard + [Heard(r, true)]);
    if FromParent(p, r.sender) then
      q.(sets := Bmc.FollowRecord(p.state, p.o, r, p.sets), table := Refreshed(p.table, r))
    else q.(table := Added(p.table, r))
  }

  /** The first Sync of a master starts the timer of the requests. */
  function RequestsStarted(p: Port, c: Config): Bank {
    if !p.pair.waitingForFirstSync then p.bank
    else match c.mechanism {
      case E2E => Started(p.bank, DELAYREQ_INTERVAL, c.ticksOf(p.pair.logMinDelayReqInterval))
      case P2P => Started(p.bank, PDELAYREQ_INTERVAL, c.pdelayTicks)
      case Disabled => p.bank
    }
  }

  function HandleSync(p: Port, c: Config, h: Header, origin: Time, stamp: Time): Port {
    if !Following(p.state) || h.sender == OwnPort(p, c) || !FromParent(p, h.sender) then p
    else
      var b := RequestsStarted(p, c);
      var heard := p.log + [SyncHeard(h.sender, h.sequence, stamp, h.correction, h.twoStep)];
      var pair := p.pair.(waitingForFirstSync := false, syncReceiveTime := stamp);
      if h.twoStep then
        p.(bank := b, log := heard,
           pair := pair.(waitingForFollow := true, recvSyncSequenceId := h.sequence, lastSyncCorrection := h.correction))
      else
        p.(bank := b, pair := pair.(waitingForFollow := false),
           log := heard + [OffsetUpdate(h.sender, h.sequence, origin, stamp, h.correction, None)])
  }

  function HandleFollowUp(p: Port, c: Config, h: Header, origin: Time): Port {
    if h.sender == OwnPort(p, c) || !Following(p.state) || !FromParent(p, h.sender)
       || !p.pair.waitingForFollow || p.pair.recvSyncSequenceId != h.sequence then p
    else
      p.(pair := p.pair.(waitingForFollow := false),
         log := p.log + [OffsetUpdate(h.sender, h.sequence, origin, p.pair.syncReceiveTime,
                                      Sum(h.correction, p.pair.lastSyncCorrection), Some(h.correction))])
  }

  function HandleDelayResp(p: Port, c: Config, h: Header, requester: PortIdentity, receipt: Time): Port {
    if p.state != Slave || requester != OwnPort(p, c) || p.pair.sentDelayReqSequenceId - 1 != h.sequence
       || !FromParent(p, h.sender) || !p.pair.waitingForDelayResp then p
    else
      var interval := if c.ignoreMasterInterval then c.subsequentDelayReq else h.logInterval;
      p.(pair := p.pair.(waitingForDelayResp := false, logMinDelayReqInterval := interval),
         log := p.log + [DelayUpdate(h.sequence, p.pair.delayReqSendTime, receipt, h.correction)])
  }

  function HandlePDelayResp(p: Port, c: Config, h: Header, requester: PortIdentity, receipt: Time, stamp: Time): Port {
    if !Measuring(p.state) || p.pair.sentPDelayReqSequenceId - 1 != h.sequence
       || requester != OwnPort(p, c) then p
    else
      var pair := p.pair.(recvPDelayRespSequenceId := h.sequence, peer := p.pair.peer.(respRecv := stamp));
      if h.twoStep then
        p.(pair := pair.(peer := pair.peer.(reqRecv := receipt), lastPDelayCorrection := h.correction))
      else
        p.(pair := pair, log := p.log + [PeerDelayUpdate(pair.peer, h.correction, false)])
  }

  function HandlePDelayRespFollowUp(p: Port, h: Header, origin: Time): Port {
    if (p.state != Slave && p.state != Master) || h.sequence != p.pair.sentPDelayReqSequenceId - 1
       || h.sequence != p.pair.recvPDelayRespSequenceId then p
    else
      var peer := p.pair.peer.(respSend := origin);
      p.(pair := p.pair.(peer := peer),
         log := p.log + [PeerDelayUpdate(peer, Sum(h.correction, p.pair.lastPDelayCorrection), true)])
  }

  /** Which messages the delay mechanism lets through to the length check. */
  predicate Considered(c: Config, m: Message) {
    match m {
      case DelayReqMsg(_) => c.mechanism == Servo.E2E
      case DelayRespMsg(_, _, _) => c.mechanism == Servo.E2E
      case PDelayReqMsg(_) => c.mechanism == Servo.P2P
      case PDelayRespMsg(_, _, _, _) => c.mechanism == Servo.P2P
      case PDelayRespFollowUpMsg(_, _) => c.mechanism == Servo.P2P
      case OtherMsg => false
      case _ => true
    }
  }

  function HandleMessage(p: Port, c: Config, m: Message, input: Input): Port
    requires InBounds(p.table)
  {
    match m {
      case AnnounceMsg(r) => HandleAnnounce(p, c, r)
      case SyncMsg(h, origin, stamp) => HandleSync(p, c, h, origin, stamp)
      case FollowUpMsg(h, origin) => HandleFollowUp(p, c, h, origin)
      case DelayReqMsg(h) => if p.state == Master && !input.replySent then ToState(p, c, Faulty) else p
      case DelayRespMsg(h, requester, receipt) => HandleDelayResp(p, c, h, requester, receipt)
      case PDelayReqMsg(h) =>
        if Measuring(p.state) && h.sender != OwnPort(p, c) && !input.replySent then ToState(p, c, Faulty)
        else p
      case PDelayRespMsg(h, requester, receipt, stamp) => HandlePDelayResp(p, c, h, requester, receipt, stamp)
      case PDelayRespFollowUpMsg(h, origin) => HandlePDelayRespFollowUp(p, h, origin)
      case OtherMsg => p
    }
  }

  function Handle(p: Port, c: Config, input: Input): Port
    requires InBounds(p.table)
  {
    match input.received {
      case Nothing => p
      case OtherVersionOrDomain => p
      case ReceiveError => ToState(p, c, Faulty)
      case ShortHeader => ToState(p, c, Faulty)
      case Got(m, short) =>
        if !Considered(c, m) then p
        else if short then ToState(p, c, Faulty)
        else HandleMessage(p, c, m, input)
    }
  }

  // ---- Issued messages

  function IssueDelayReq(p: Port, c: Config, input: Input): Port {
    if !input.delayReqSent then ToState(p, c, Faulty)
    else
      var seqId := p.pair.sentDelayReqSequenceId;
      var pair := p.pair.(sentDelayReqSequenceId := NextId(seqId));
      var b := Started(p.bank, DELAYREQ_INTERVAL, input.delayTicks);
      match input.txStamp {
        case Some(t) =>
          var sent := Sum(t, c.outboundLatency);
          p.(bank := b, pair := pair.(waitingForDelayResp := true, delayReqSendTime := sent),
             log := p.log + [DelayRequested(seqId, sent)])
        case None => p.(bank := b, pair := pair, log := p.log + [BlindDelayRequest(seqId)])
      }
  }

  function IssuePDelayReq(p: Port, c: Config, input: Input): Port {
    if !input.pdelayReqSent then ToState(p, c, Faulty)
    else
      var pair := p.pair.(sentPDelayReqSequenceId := NextId(p.pair.sentPDelayReqSequenceId));
      match input.txStamp {
        case Some(t) => p.(pair := pair.(peer := pair.peer.(reqSend := Sum(t, c.outboundLatency))))
        case None => p.(pair := pair)
      }
  }

  function Issue(p: Port, c: Config, sent: bool): Port { if sent then p else ToState(p, c, Faulty) }

  // ---- One pass of the main loop

  function PollTimer(p: Port, timer: nat, alarms: nat): (Port, bool) {
    var (b, expired) := Polled(p.bank.(elapsed := p.bank.elapsed + alarms), timer);
    (p.(bank := b), expired)
  }

  function StateDecision(p: Port, c: Config): Port
    requires InBounds(p.table)
  {
    if !p.recordUpdate || !Deciding(p.state) then p
    else
      var (decided, sets, best) :=
        Bmc.Exec(p.state, p.d, p.o, RecordsOf(p.table), p.table.number, p.table.best, RecordsOf(p.table)[0], p.sets);
      var q := p.(recordUpdate := false, sets := sets, table := p.table.(best := best));
      if decided != p.state then ToState(q, c, decided) else q
  }

  predicate SlaveOnlyClock(p: Port) {
    p.o.slaveOnly || p.d.quality.clockClass == Bmc.SLAVE_ONLY_CLOCK_CLASS
  }

  function AnnounceTimeout(p: Port, c: Config): Port {
    var q := p.(table := Emptied(p.table));
    if SlaveOnlyClock(p) then ToState(q, c, Listening)
    else ToState(q.(sets := Bmc.BecomeMaster(p.d, p.o, p.sets)), c, Master)
  }

  /** The timers of a port that is not master, after it has handled a message. */
  function SlaveTimers(p: Port, c: Config, input: Input): Port {
    var (p1, receipt) := PollTimer(p, ANNOUNCE_RECEIPT, input.alarms.0);
    var p2 := if receipt then AnnounceTimeout(p1, c) else p1;
    var p3 := PollTimer(p2, OPERATOR_MESSAGES, input.alarms.1).0;
    match c.mechanism {
      case E2E =>
        var (p4, delay) := PollTimer(p3, DELAYREQ_INTERVAL, input.alarms.2);
        if delay then IssueDelayReq(p4, c, input) else p4
      case P2P =>
        var (p4, delay) := PollTimer(p3, PDELAYREQ_INTERVAL, input.alarms.2);
        if delay then IssuePDelayReq(p4, c, input) else p4
      case Disabled => p3
    }
  }

  /** Announce and Sync of a master. */
  function MasterMessages(p: Port, c: Config, input: Input): Port {
    var p0 := if p.announced then p else Issue(p, c, input.announceSent).(announced := true);
    var (p1, sync) := PollTimer(p0, SYNC_INTERVAL, input.alarms.0);
    var p2 := if sync then Issue(p1, c, input.syncSent) else p1;
    var (p3, announce) := PollTimer(p2, ANNOUNCE_INTERVAL, input.alarms.1);
    if announce then Issue(p3, c, input.announceSent) else p3
  }

  /** The timers of a master, before it handles a message. */
  function MasterTimers(p: Port, c: Config, input: Input): Port {
    var q := MasterMessages(p, c, input);
    if c.mechanism != Servo.P2P then q
    else
      var (r, delay) := PollTimer(q, PDELAYREQ_INTERVAL, input.alarms.2);
      if delay then IssuePDelayReq(r, c, input) else r
  }

  function DoState(p: Port, c: Config, input: Input): Port
    requires InBounds(p.table)
  {
    var q := StateDecision(p, c);
    DecisionInBounds(p, c);
    match q.state {
      case Faulty => ToState(q, c, Initializing)
      case Listening => SlaveTimers(Handle(q, c, input), c, input)
      case Uncalibrated => SlaveTimers(Handle(q, c, input), c, input)
      case Slave => SlaveTimers(Handle(q, c, input), c, input)
      case Passive => SlaveTimers(Handle(q, c, input), c, input)
      case Master =>
        TimersKeepTable(q, c, input);
        var r := Handle(MasterTimers(q, c, input), c, input);
        if SlaveOnlyClock(r) then ToState(r, c, Listening) else r
      case DisabledState => Handle(q, c, input)
      case _ => q
    }
  }

  /** doInit. When the network cannot be opened the main loop ends. */
  function DoInit(p: Port, c: Config, input: Input): Port {
    if !input.netInit then ToState(p, c, Faulty)
    else
      var (d, o) := Bmc.InitDefault(p.o, p.d.identity);
      var q := p.(d := d, o := o, table := Reinitialized(p.table), bank := p.bank.(elapsed := 0),
                  log := p.log + [ServoInit], sets := Bmc.BecomeMaster(d, o, p.sets));
      ToState(q, c, Listening)
  }

  function Step(p: Port, c: Config, input: Input): Port
    requires InBounds(p.table)
  {
    if p.state == Initializing then DoInit(p, c, input) else DoState(p, c, input)
  }

  lemma LeaveKeeps(p: Port, c: Config)
    ensures var q := Leave(p, c); q == p.(bank := q.bank, log := q.log)
  {
    hide Stopped;
  }

  lemma EnterKeeps(p: Port, c: Config, s: PortState)
    ensures var q := Enter(p, c, s);
      q.table == p.table && q.d == p.d && q.o == p.o && q.recordUpdate == p.recordUpdate && q.sets.parent == p.sets.parent
      && q.sets.current == p.sets.current && q.heard == p.heard
      && q.state == if s == PreMaster then p.state else s
  {
    hide Stopped, Started;
  }

  lemma ToStateKeeps(p: Port, c: Config, s: PortState)
    ensures var q := ToState(p, c, s);
      q.table == p.table && q.d == p.d && q.o == p.o && q.recordUpdate == p.recordUpdate && q.sets.parent == p.sets.parent
      && q.sets.current == p.sets.current && q.heard == p.heard
      && q.state == if s == PreMaster then p.state else s
  {
    hide Leave, Enter;
    LeaveKeeps(p, c);
    EnterKeeps(Leave(p, c), c, s);
  }

  lemma DecisionInBounds(p: Port, c: Config)
    requires InBounds(p.table)
    ensures InBounds(StateDecision(p, c).table)
  {
    hide ToState, Bmc.Decide, Bmc.BecomeMaster;
    if p.recordUpdate && Deciding(p.state) {
      var (decided, sets, best) :=
        Bmc.Exec(p.state, p.d, p.o, RecordsOf(p.table), p.table.number, p.table.best, RecordsOf(p.table)[0], p.sets);
      ToStateKeeps(p.(recordUpdate := false, sets := sets, table := p.table.(best := best)), c, decided);
    }
  }

  lemma IssueKeepsTable(p: Port, c: Config, sent: bool)
    ensures Issue(p, c, sent).table == p.table
  {
    hide ToState;
    ToStateKeeps(p, c, Faulty);
  }

  lemma IssuePDelayKeepsTable(p: Port, c: Config, input: Input)
    ensures IssuePDelayReq(p, c, input).table == p.table
  {
    hide ToState;
    ToStateKeeps(p, c, Faulty);
  }

  lemma TimersKeepTable(p: Port, c: Config, input: Input)
    ensures MasterTimers(p, c, input).table == p.table
  {
    hide Issue, Polled, IssuePDelayReq;
    IssueKeepsTable(p, c, input.announceSent);
    var p0 := if p.announced then p else Issue(p, c, input.announceSent).(announced := true);
    var (p1, sync) := PollTimer(p0, SYNC_INTERVAL, input.alarms.0);
    IssueKeepsTable(p1, c, input.syncSent);
    var p2 := if sync then Issue(p1, c, input.syncSent) else p1;
    var (p3, announce) := PollTimer(p2, ANNOUNCE_INTERVAL, input.alarms.1);
    IssueKeepsTable(p3, c, input.announceSent);
    var p4 := if announce then Issue(p3, c, input.announceSent) else p3;
    IssuePDelayKeepsTable(PollTimer(p4, PDELAYREQ_INTERVAL, input.alarms.2).0, c, input);
  }
}
