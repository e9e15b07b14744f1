/** Which Sync goes with which Follow_Up, and which Delay_Resp with which Delay_Req, in every run. */
module PortPairing {
  import opened Bits
  import opened TimeArith
  import opened DataSets
  import opened Timers
  import opened ForeignMasters
  import opened Port
  import opened PortInvariants
  import Bmc
  import Servo

  function Front(log: seq<Action>): seq<Action>
    requires log != []
  {
    log[..|log| - 1]
  }

  function Last(log: seq<Action>): Action
    requires log != []
  {
    log[|log| - 1]
  }

  /** The latest accepted Sync, unless an offset was computed or the servo restarted since. */
  function OpenSync(log: seq<Action>): Option<Action>
    decreases |log|
  {
    if log == [] then None
    else match Last(log) {
      case SyncHeard(_, _, _, _, _) => Some(Last(log))
      case OffsetUpdate(_, _, _, _, _, _) => None
      case ServoInit => None
      case _ => OpenSync(Front(log))
    }
  }

  /** The latest timestamped Delay_Req, unless a delay was computed or the servo restarted since. */
  function OpenRequest(log: seq<Action>): Option<Action>
    decreases |log|
  {
    if log == [] then None
    else match Last(log) {
      case DelayRequested(_, _) => Some(Last(log))
      case DelayUpdate(_, _, _, _) => None
      case ServoInit => None
      case _ => OpenRequest(Front(log))
    }
  }

  /** The latest Delay_Req of all, timestamped or not. */
  function LastRequest(log: seq<Action>): Option<Action>
    decreases |log|
  {
    if log == [] then None
    else if Last(log).DelayRequested? || Last(log).BlindDelayRequest? then Some(Last(log))
    else LastRequest(Front(log))
  }

  predicate Completes(sync: Option<Action>, a: Action)
    requires a.OffsetUpdate?
  {
    && sync.Some? && sync.value.SyncHeard?
    && sync.value.sequence == a.sequence && sync.value.received == a.received
    && match a.followUp {
         case Some(f) => sync.value.twoStep && a.correction == Sum(f, sync.value.correction)
         case None => !sync.value.twoStep && a.correction == sync.value.correction && a.sender == sync.value.sender
       }
  }

  predicate Answers(open: Option<Action>, last: Option<Action>, a: Action)
    requires a.DelayUpdate?
  {
    && open.Some? && open.value.DelayRequested? && open.value.sent == a.send
    && last.Some? && (last.value.DelayRequested? || last.value.BlindDelayRequest?) && last.value.sequence == a.sequence
  }

  /**
   * Every offset comes from the latest Sync, with its sequence id, receive time and correction, and uses it up; every
   * delay uses up the latest timestamped request and answers the sequence id of the latest request.
   */
  predicate WellPaired(log: seq<Action>)
    decreases |log|
  {
    log == []
    || (WellPaired(Front(log))
        && (Last(log).OffsetUpdate? ==> Completes(OpenSync(Front(log)), Last(log)))
        && (Last(log).DelayUpdate? ==> Answers(OpenRequest(Front(log)), LastRequest(Front(log)), Last(log))))
  }

  lemma Appended(log: seq<Action>, a: Action)
    ensures Front(log + [a]) == log && Last(log + [a]) == a
    ensures OpenSync(log + [a]) ==
      if a.SyncHeard? then Some(a) else if a.OffsetUpdate? || a == ServoInit then None else OpenSync(log)
    ensures OpenRequest(log + [a]) ==
      if a.DelayRequested? then Some(a) else if a.DelayUpdate? || a == ServoInit then None else OpenRequest(log)
    ensures LastRequest(log + [a]) == if a.DelayRequested? || a.BlindDelayRequest? then Some(a) else LastRequest(log)
    ensures WellPaired(log + [a]) <==>
      WellPaired(log) && (a.OffsetUpdate? ==> Completes(OpenSync(log), a))
      && (a.DelayUpdate? ==> Answers(OpenRequest(log), LastRequest(log), a))
  {
    assert Front(log + [a]) == log;
  }

  // ---- The invariant

  predicate Numbered(log: seq<Action>, sent: UInt16) {
    match LastRequest(log) {
      case None => sent == 0
      case Some(a) => (a.DelayRequested? || a.BlindDelayRequest?) && sent == NextId(a.sequence)
    }
  }

  predicate AwaitsFollowUp(log: seq<Action>, pair: Pairing) {
    var s := OpenSync(log);
    s.Some? && s.value.SyncHeard? && s.value.twoStep && s.value.sequence == pair.recvSyncSequenceId
    && s.value.received == pair.syncReceiveTime && s.value.correction == pair.lastSyncCorrection
  }

  predicate AwaitsResponse(log: seq<Action>, pair: Pairing) {
    var r := OpenRequest(log);
    r.Some? && r.value.DelayRequested? && r.value.sent == pair.delayReqSendTime
  }

  /** While a slave waits for a Follow_Up, what it stored comes from one Sync, the latest one it accepted. */
  predicate Paired(p: Port) {
    && WellPaired(p.log) && Numbered(p.log, p.pair.sentDelayReqSequenceId)
    && (p.state == Slave && p.pair.waitingForFollow ==> AwaitsFollowUp(p.log, p.pair))
    && (p.state == Slave && p.pair.waitingForDelayResp ==> AwaitsResponse(p.log, p.pair))
  }

  lemma RestartPaired(log: seq<Action>, sent: UInt16)
    requires WellPaired(log) && Numbered(log, sent)
    ensures WellPaired(log + [ServoInit]) && Numbered(log + [ServoInit], sent)
  {
    hide OpenSync, OpenRequest, LastRequest, WellPaired, Completes, Answers;
    Appended(log, ServoInit);
  }

  lemma LeaveLog(p: Port, c: Config)
    ensures Leave(p, c).log == (if p.state == Slave then p.log + [ServoInit] else p.log) && Leave(p, c).pair == p.pair
  {
    hide Stopped;
  }

  lemma EnterLog(p: Port, c: Config, s: PortState)
    requires s != PreMaster
    ensures var q := Enter(p, c, s);
      q.state == s && q.log == (if s == Slave then p.log + [ServoInit] else p.log)
      && q.pair.sentDelayReqSequenceId == p.pair.sentDelayReqSequenceId
      && (s == Slave ==> !q.pair.waitingForFollow && !q.pair.waitingForDelayResp)
  {
    hide Stopped, Started;
  }

  lemma ToStatePaired(p: Port, c: Config, s: PortState)
    requires WellPaired(p.log) && Numbered(p.log, p.pair.sentDelayReqSequenceId) && s != PreMaster
    ensures Paired(ToState(p, c, s))
  {
    hide Leave, Enter, WellPaired, Numbered, AwaitsFollowUp, AwaitsResponse;
    LeaveLog(p, c);
    RestartPaired(p.log, p.pair.sentDelayReqSequenceId);
    var q := Leave(p, c);
    EnterLog(q, c, s);
    RestartPaired(q.log, q.pair.sentDelayReqSequenceId);
  }

  /** Nothing that leaves log, pairing and state alone matters here. */
  lemma SamePaired(p: Port, q: Port)
    requires Paired(p) && q.log == p.log && q.pair == p.pair && q.state == p.state
    ensures Paired(q)
  {
    hide WellPaired, Numbered, AwaitsFollowUp, AwaitsResponse;
  }

  lemma SyncPaired(p: Port, c: Config, h: Header, origin: Time, stamp: Time)
    requires Paired(p) && p.state != Uncalibrated
    ensures Paired(HandleSync(p, c, h, origin, stamp))
  {
    hide OpenSync, OpenRequest, LastRequest, WellPaired, Started;
    var heard := SyncHeard(h.sender, h.sequence, stamp, h.correction, h.twoStep);
    Appended(p.log, heard);
    Appended(p.log + [heard], OffsetUpdate(h.sender, h.sequence, origin, stamp, h.correction, None));
  }

  lemma FollowUpPaired(p: Port, c: Config, h: Header, origin: Time)
    requires Paired(p) && p.state != Uncalibrated
    ensures Paired(HandleFollowUp(p, c, h, origin))
  {
    hide OpenSync, OpenRequest, LastRequest, WellPaired, Sum;
    Appended(p.log, OffsetUpdate(h.sender, h.sequence, origin, p.pair.syncReceiveTime,
                                 Sum(h.correction, p.pair.lastSyncCorrection), Some(h.correction)));
  }

  lemma DelayRespPaired(p: Port, c: Config, h: Header, requester: PortIdentity, receipt: Time)
    requires Paired(p)
    ensures Paired(HandleDelayResp(p, c, h, requester, receipt))
  {
    hide OpenSync, OpenRequest, LastRequest, WellPaired;
    Appended(p.log, DelayUpdate(h.sequence, p.pair.delayReqSendTime, receipt, h.correction));
  }

  lemma PeerPaired(p: Port, c: Config, h: Header, requester: PortIdentity, receipt: Time, stamp: Time)
    requires Paired(p)
    ensures Paired(HandlePDelayResp(p, c, h, requester, receipt, stamp)) && Paired(HandlePDelayRespFollowUp(p, h, receipt))
  {
    hide OpenSync, OpenRequest, LastRequest, WellPaired, Sum;
    Appended(p.log, PeerDelayUpdate(p.pair.peer.(respRecv := stamp), h.correction, false));
    Appended(p.log, PeerDelayUpdate(p.pair.peer.(respSend := receipt), Sum(h.correction, p.pair.lastPDelayCorrection), true));
  }

  lemma AnnounceKeepsPairing(p: Port, c: Config, r: Record)
    requires InBounds(p.table)
    ensures var q := HandleAnnounce(p, c, r); q.log == p.log && q.pair == p.pair && q.state == p.state
  {
    hide Started, Bmc.FollowRecord, Added, Refreshed;
  }

  lemma HandleMessagePaired(p: Port, c: Config, m: Message, input: Input)
    requires Paired(p) && InBounds(p.table) && p.state != Uncalibrated
    ensures Paired(HandleMessage(p, c, m, input))
  {
    hide Paired, ToState, HandleAnnounce, HandleSync, HandleFollowUp, HandleDelayResp, HandlePDelayResp, HandlePDelayRespFollowUp;
    FaultPaired(p, c);
    match m {
      case AnnounceMsg(r) =>
        AnnounceKeepsPairing(p, c, r);
        SamePaired(p, HandleAnnounce(p, c, r));
      case SyncMsg(h, origin, stamp) => SyncPaired(p, c, h, origin, stamp);
      case FollowUpMsg(h, origin) => FollowUpPaired(p, c, h, origin);
      case DelayRespMsg(h, requester, receipt) => DelayRespPaired(p, c, h, requester, receipt);
      case PDelayRespMsg(h, requester, receipt, stamp) => PeerPaired(p, c, h, requester, receipt, stamp);
      case PDelayRespFollowUpMsg(h, origin) => PeerPaired(p, c, h, OwnPort(p, c), origin, origin);
      case _ =>
    }
  }

  lemma FaultPaired(p: Port, c: Config)
    requires Paired(p)
    ensures Paired(ToState(p, c, Faulty)) && Paired(ToState(p, c, Initializing)) && Paired(ToState(p, c, Listening))
  {
    hide ToState, WellPaired, Numbered, AwaitsFollowUp, AwaitsResponse;
    ToStatePaired(p, c, Faulty);
    ToStatePaired(p, c, Initializing);
    ToStatePaired(p, c, Listening);
  }

  lemma HandlePaired(p: Port, c: Config, input: Input)
    requires Paired(p) && InBounds(p.table) && p.state != Uncalibrated
    ensures Paired(Handle(p, c, input))
  {
    hide Paired, ToState, HandleMessage;
    FaultPaired(p, c);
    if input.received.Got? {
      HandleMessagePaired(p, c, input.received.m, input);
    }
  }

  lemma IssuePaired(p: Port, c: Config, input: Input, sent: bool)
    requires Paired(p)
    ensures Paired(Issue(p, c, sent)) && Paired(IssueDelayReq(p, c, input)) && Paired(IssuePDelayReq(p, c, input))
  {
    hide OpenSync, OpenRequest, LastRequest, WellPaired, Sum, ToState, Started;
    FaultPaired(p, c);
    var seqId := p.pair.sentDelayReqSequenceId;
    Appended(p.log, BlindDelayRequest(seqId));
    if input.txStamp.Some? {
      Appended(p.log, DelayRequested(seqId, Sum(input.txStamp.value, c.outboundLatency)));
    }
  }

  lemma PollPaired(p: Port, timer: nat, alarms: nat)
    requires Paired(p)
    ensures Paired(PollTimer(p, timer, alarms).0)
  {
    hide Polled, Paired;
    SamePaired(p, PollTimer(p, timer, alarms).0);
  }

  lemma TimeoutPaired(p: Port, c: Config)
    requires Paired(p)
    ensures Paired(AnnounceTimeout(p, c))
  {
    hide ToState, Bmc.BecomeMaster, WellPaired, Numbered, AwaitsFollowUp, AwaitsResponse;
    var q := p.(table := Emptied(p.table));
    ToStatePaired(q, c, Listening);
    ToStatePaired(q.(sets := Bmc.BecomeMaster(p.d, p.o, p.sets)), c, Master);
  }

  lemma SlaveTimersPaired(p: Port, c: Config, input: Input)
    requires Paired(p)
    ensures Paired(SlaveTimers(p, c, input))
  {
    hide Paired, PollTimer, AnnounceTimeout, IssueDelayReq, IssuePDelayReq;
    PollPaired(p, ANNOUNCE_RECEIPT, input.alarms.0);
    var (p1, receipt) := PollTimer(p, ANNOUNCE_RECEIPT, input.alarms.0);
    TimeoutPaired(p1, c);
    var p2 := if receipt then AnnounceTimeout(p1, c) else p1;
    PollPaired(p2, OPERATOR_MESSAGES, input.alarms.1);
    var p3 := PollTimer(p2, OPERATOR_MESSAGES, input.alarms.1).0;
    PollPaired(p3, DELAYREQ_INTERVAL, input.alarms.2);
    IssuePaired(PollTimer(p3, DELAYREQ_INTERVAL, input.alarms.2).0, c, input, true);
    PollPaired(p3, PDELAYREQ_INTERVAL, input.alarms.2);
    IssuePaired(PollTimer(p3, PDELAYREQ_INTERVAL, input.alarms.2).0, c, input, true);
  }

  lemma MasterMessagesPaired(p: Port, c: Config, input: Input)
    requires Paired(p)
    ensures Paired(MasterMessages(p, c, input))
  {
    hide Paired, PollTimer, Issue;
    IssuePaired(p, c, input, input.announceSent);
    SamePaired(Issue(p, c, input.announceSent), Issue(p, c, input.announceSent).(announced := true));
    var p0 := if p.announced then p else Issue(p, c, input.announceSent).(announced := true);
    PollPaired(p0, SYNC_INTERVAL, input.alarms.0);
    var (p1, sync) := PollTimer(p0, SYNC_INTERVAL, input.alarms.0);
    IssuePaired(p1, c, input, input.syncSent);
    var p2 := if sync then Issue(p1, c, input.syncSent) else p1;
    PollPaired(p2, ANNOUNCE_INTERVAL, input.alarms.1);
    var (p3, announce) := PollTimer(p2, ANNOUNCE_INTERVAL, input.alarms.1);
    IssuePaired(p3, c, input, input.announceSent);
  }

  lemma MasterTimersPaired(p: Port, c: Config, input: Input)
    requires Paired(p)
    ensures Paired(MasterTimers(p, c, input))
  {
    hide Paired, PollTimer, MasterMessages, IssuePDelayReq;
    MasterMessagesPaired(p, c, input);
    var p4 := MasterMessages(p, c, input);
    PollPaired(p4, PDELAYREQ_INTERVAL, input.alarms.2);
    IssuePaired(PollTimer(p4, PDELAYREQ_INTERVAL, input.alarms.2).0, c, input, true);
  }

  lemma DecisionPaired(p: Port, c: Config)
    requires Paired(p) && InBounds(p.table)
    ensures Paired(StateDecision(p, c))
  {
    hide ToState, WellPaired, Numbered, AwaitsFollowUp, AwaitsResponse, Bmc.Exec, RecordsOf;
    if p.recordUpdate && Deciding(p.state) {
      var (decided, sets, best) :=
        Bmc.Exec(p.state, p.d, p.o, RecordsOf(p.table), p.table.number, p.table.best, RecordsOf(p.table)[0], p.sets);
      ExecFollowsBest(p);
      ToStatePaired(p.(recordUpdate := false, sets := sets, table := p.table.(best := best)), c, decided);
    }
  }

  lemma StepPaired(p: Port, c: Config, input: Input)
    requires Paired(p) && Timed(p, c) && InBounds(p.table)
    ensures Paired(Step(p, c, input))
  {
    hide Paired, Profile, StateDecision, ToState, Handle, SlaveTimers, MasterTimers, DoInit;
    if p.state == Initializing {
      DoInitPaired(p, c, input);
    } else {
      DecisionPaired(p, c);
      DecisionTimed(p, c);
      DecisionInBounds(p, c);
      var q := StateDecision(p, c);
      FaultPaired(q, c);
      HandlePaired(q, c, input);
      SlaveTimersPaired(Handle(q, c, input), c, input);
      if q.state == Master {
        MasterTimersPaired(q, c, input);
        MasterTimersTimed(q, c, input);
        TimersKeepTable(q, c, input);
        HandlePaired(MasterTimers(q, c, input), c, input);
        FaultPaired(Handle(MasterTimers(q, c, input), c, input), c);
      }
    }
  }

  lemma DoInitPaired(p: Port, c: Config, input: Input)
    requires Paired(p)
    ensures Paired(DoInit(p, c, input))
  {
    hide ToState, WellPaired, Numbered, AwaitsFollowUp, AwaitsResponse, Bmc.BecomeMaster, Bmc.InitDefault;
    FaultPaired(p, c);
    RestartPaired(p.log, p.pair.sentDelayReqSequenceId);
    var (d, o) := Bmc.InitDefault(p.o, p.d.identity);
    ToStatePaired(p.(d := d, o := o, table := Reinitialized(p.table), bank := p.bank.(elapsed := 0),
                     log := p.log + [ServoInit], sets := Bmc.BecomeMaster(d, o, p.sets)), c, Listening);
  }

  // ---- Consequences

  function Count(log: seq<Action>, f: Action -> bool): nat {
    if log == [] then 0 else Count(Front(log), f) + if f(Last(log)) then 1 else 0
  }

  /** There are never more offset updates than accepted Syncs, nor more delay updates than timestamped Delay_Reqs. */
  lemma {:induction false} UsedAtMostOnce(log: seq<Action>)
    requires WellPaired(log)
    ensures Count(log, (a: Action) => a.OffsetUpdate?) + (if OpenSync(log).Some? then 1 else 0)
         <= Count(log, (a: Action) => a.SyncHeard?)
    ensures Count(log, (a: Action) => a.DelayUpdate?) + (if OpenRequest(log).Some? then 1 else 0)
         <= Count(log, (a: Action) => a.DelayRequested?)
    decreases |log|
  {
    if log != [] {
      UsedAtMostOnce(Front(log));
    }
  }

  predicate ClosesSync(a: Action) { a.SyncHeard? || a.OffsetUpdate? || a == ServoInit }

  predicate ClosesRequest(a: Action) { a.DelayRequested? || a.DelayUpdate? || a == ServoInit }

  /** Where the open Sync was heard: nothing that concerns it has happened since. */
  lemma {:induction false} OpenSyncAt(log: seq<Action>) returns (s: nat)
    requires OpenSync(log).Some?
    ensures s < |log| && log[s] == OpenSync(log).value && log[s].SyncHeard?
    ensures forall k :: s < k < |log| ==> !ClosesSync(log[k])
    decreases |log|
  {
    if Last(log).SyncHeard? {
      s := |log| - 1;
    } else {
      s := OpenSyncAt(Front(log));
      assert forall k :: s < k < |log| - 1 ==> log[k] == Front(log)[k];
    }
  }

  lemma {:induction false} OpenRequestAt(log: seq<Action>) returns (s: nat)
    requires OpenRequest(log).Some?
    ensures s < |log| && log[s] == OpenRequest(log).value && log[s].DelayRequested?
    ensures forall k :: s < k < |log| ==> !ClosesRequest(log[k])
    decreases |log|
  {
    if Last(log).DelayRequested? {
      s := |log| - 1;
    } else {
      s := OpenRequestAt(Front(log));
      assert forall k :: s < k < |log| - 1 ==> log[k] == Front(log)[k];
    }
  }

  lemma {:induction false} WellPairedAt(log: seq<Action>, i: nat)
    requires WellPaired(log) && i < |log|
    ensures WellPaired(log[..i])
    ensures log[i].OffsetUpdate? ==> Completes(OpenSync(log[..i]), log[i])
    ensures log[i].DelayUpdate? ==> Answers(OpenRequest(log[..i]), LastRequest(log[..i]), log[i])
    decreases |log|
  {
    hide Completes, Answers, OpenSync, OpenRequest, LastRequest;
    if i < |log| - 1 {
      WellPairedAt(Front(log), i);
      assert Front(log)[..i] == log[..i];
    }
  }

  /** Every offset update has a Sync of its own: heard before it, and after any earlier update or restart. */
  lemma OwnSync(log: seq<Action>, i: nat) returns (s: nat)
    requires WellPaired(log) && i < |log| && log[i].OffsetUpdate?
    ensures s < i && log[s].SyncHeard? && Completes(Some(log[s]), log[i])
    ensures forall k :: s < k < i ==> !ClosesSync(log[k])
  {
    hide WellPaired, OpenSync, OpenRequest, LastRequest, Answers;
    WellPairedAt(log, i);
    s := OpenSyncAt(log[..i]);
    assert forall k :: s < k < i ==> log[k] == log[..i][k];
  }

  /** Every delay update has a timestamped request of its own, whose send time it uses. */
  lemma OwnRequest(log: seq<Action>, i: nat) returns (s: nat)
    requires WellPaired(log) && i < |log| && log[i].DelayUpdate?
    ensures s < i && log[s].DelayRequested? && log[s].sent == log[i].send
    ensures forall k :: s < k < i ==> !ClosesRequest(log[k])
    ensures OpenRequest(log[..i]) == Some(log[s]) && Answers(Some(log[s]), LastRequest(log[..i]), log[i])
  {
    hide WellPaired, OpenSync, OpenRequest, LastRequest, Completes;
    WellPairedAt(log, i);
    s := OpenRequestAt(log[..i]);
    assert forall k :: s < k < i ==> log[k] == log[..i][k];
  }

  /** So between any two offset updates a Sync was accepted, and between any two delay updates a request was sent. */
  lemma NothingIsReused(log: seq<Action>, i: nat, j: nat)
    requires WellPaired(log) && i < j < |log|
    ensures log[i].OffsetUpdate? && log[j].OffsetUpdate? ==>
      exists s :: i < s < j && log[s].SyncHeard? && Completes(Some(log[s]), log[j])
    ensures log[i].DelayUpdate? && log[j].DelayUpdate? ==>
      exists s :: i < s < j && log[s].DelayRequested? && log[s].sent == log[j].send
  {
    hide WellPaired, Completes, Answers, OpenRequest, LastRequest;
    if log[i].OffsetUpdate? && log[j].OffsetUpdate? {
      var s := OwnSync(log, j);
      assert ClosesSync(log[i]);
    }
    if log[i].DelayUpdate? && log[j].DelayUpdate? {
      var s := OwnRequest(log, j);
      assert ClosesRequest(log[i]);
    }
  }

  /** The request whose send time is used is the one that was answered exactly if the latest request was stamped. */
  lemma {:induction false} AnswerFitsUnlessBlind(log: seq<Action>)
    requires OpenRequest(log).Some?
    ensures LastRequest(log).Some? && OpenRequest(log).value.DelayRequested?
    ensures OpenRequest(log) == LastRequest(log) <==> LastRequest(log).value.DelayRequested?
    decreases |log|
  {
    if !Last(log).DelayRequested? {
      AnswerFitsUnlessBlind(Front(log));
    }
  }

  /** Otherwise the send time of an older request is combined with the receive time of the newer one. */
  lemma BlindRequestMixesTimes(p: Port, c: Config, input: Input, h: Header, receipt: Time)
    requires p.state == Slave && p.pair.waitingForDelayResp && p.pair.sentDelayReqSequenceId < 0xFFFF
    requires input.delayReqSent && input.txStamp == None
    requires FromParent(p, h.sender) && h.sequence == p.pair.sentDelayReqSequenceId
    ensures var q := IssueDelayReq(p, c, input);
      HandleDelayResp(q, c, h, OwnPort(q, c), receipt).log
      == p.log + [BlindDelayRequest(h.sequence)] + [DelayUpdate(h.sequence, p.pair.delayReqSendTime, receipt, h.correction)]
  {
    hide Started;
  }

  /** A response to the latest request is accepted unless that request had the last sequence id before the counter wraps. */
  lemma WrappedRequestIsUnanswered(p: Port, c: Config, h: Header, requester: PortIdentity, receipt: Time)
    requires p.state == Slave && p.pair.waitingForDelayResp && FromParent(p, h.sender) && requester == OwnPort(p, c)
    requires p.pair.sentDelayReqSequenceId == NextId(h.sequence)
    ensures HandleDelayResp(p, c, h, requester, receipt) != p <==> h.sequence != 0xFFFF
    ensures h.sequence != 0xFFFF ==>
      HandleDelayResp(p, c, h, requester, receipt).log
      == p.log + [DelayUpdate(h.sequence, p.pair.delayReqSendTime, receipt, h.correction)]
  {}

  /** The same for a one-step Pdelay_Resp, ... */
  lemma WrappedPeerRequestIsUnanswered(p: Port, c: Config, h: Header, requester: PortIdentity, receipt: Time, stamp: Time)
    requires Measuring(p.state) && requester == OwnPort(p, c) && !h.twoStep
    requires p.pair.sentPDelayReqSequenceId == NextId(h.sequence)
    ensures HandlePDelayResp(p, c, h, requester, receipt, stamp) != p <==> h.sequence != 0xFFFF
  {
    var q := HandlePDelayResp(p, c, h, requester, receipt, stamp);
    assert h.sequence != 0xFFFF ==> |q.log| == |p.log| + 1;
  }

  /** ... and for a two-step one with its Follow_Up. */
  lemma WrappedPeerFollowUpIsUnanswered(p: Port, c: Config, h: Header, requester: PortIdentity, receipt: Time, stamp: Time,
                                        f: Header, origin: Time)
    requires (p.state == Slave || p.state == Master) && requester == OwnPort(p, c) && h.twoStep && f.sequence == h.sequence
    requires p.pair.sentPDelayReqSequenceId == NextId(h.sequence)
    ensures var q := HandlePDelayResp(p, c, h, requester, receipt, stamp);
      && (h.sequence == 0xFFFF ==> q == p)
      && (HandlePDelayRespFollowUp(q, f, origin) != q <==> h.sequence != 0xFFFF)
  {
    hide Sum;
    var q := HandlePDelayResp(p, c, h, requester, receipt, stamp);
    assert h.sequence != 0xFFFF ==> |HandlePDelayRespFollowUp(q, f, origin).log| == |q.log| + 1;
  }

  /** A Pdelay_Resp_Follow_Up that is accepted is accepted again, each time driving a peer delay update. */
  lemma PeerFollowUpMayRepeat(p: Port, h: Header, origin: Time)
    requires HandlePDelayRespFollowUp(p, h, origin) != p
    ensures var q := HandlePDelayRespFollowUp(p, h, origin);
      |q.log| == |p.log| + 1 && Last(q.log).PeerDelayUpdate? && Last(q.log).times.respSend == origin
      && HandlePDelayRespFollowUp(q, h, origin).log == q.log + [Last(q.log)]
  {
    hide Sum;
  }

  /** A decision that keeps SLAVE but changes the parent keeps a pending Sync, and restarts no servo. */
  lemma SwitchKeepsPendingSync(p: Port, c: Config)
    requires InBounds(p.table) && p.state == Slave && StateDecision(p, c).state == Slave
    ensures StateDecision(p, c).pair == p.pair && StateDecision(p, c).log == p.log
  {
    hide ToState, Bmc.Exec, RecordsOf;
    if p.recordUpdate {
      ExecFollowsBest(p);
      var (decided, sets, best) :=
        Bmc.Exec(p.state, p.d, p.o, RecordsOf(p.table), p.table.number, p.table.best, RecordsOf(p.table)[0], p.sets);
      ToStateKeeps(p.(recordUpdate := false, sets := sets, table := p.table.(best := best)), c, decided);
    }
  }

  /** A pending Sync outlives a change of parent exactly in a decision that stays SLAVE but follows another sender. */
  lemma PendingSyncOutlivesParentIff(p: Port, c: Config)
    requires InBounds(p.table) && p.state == Slave && p.pair.waitingForFollow
    ensures var d := StateDecision(p, c);
      var (decided, _, best) :=
        Bmc.Exec(p.state, p.d, p.o, RecordsOf(p.table), p.table.number, p.table.best, RecordsOf(p.table)[0], p.sets);
      && best < |p.table.entries|
      && (d.state == Slave && d.pair.waitingForFollow && d.sets.parent.parent != p.sets.parent.parent
          <==> p.recordUpdate && decided == Slave && p.table.entries[best].record.sender != p.sets.parent.parent)
  {
    hide ToState, Bmc.Exec, RecordsOf;
    ExecFollowsBest(p);
    if p.recordUpdate {
      var (decided, sets, best) :=
        Bmc.Exec(p.state, p.d, p.o, RecordsOf(p.table), p.table.number, p.table.best, RecordsOf(p.table)[0], p.sets);
      ToStateKeeps(p.(recordUpdate := false, sets := sets, table := p.table.(best := best)), c, decided);
    }
  }

  /** No message changes the parent of a port that stays SLAVE, so only decisions do. */
  lemma MessagesKeepParent(p: Port, c: Config, input: Input)
    requires InBounds(p.table) && p.state == Slave
    ensures Handle(p, c, input).sets.parent.parent == p.sets.parent.parent
  {
    hide ToState, Started, Added, Refreshed, Sum;
    ToStateKeeps(p, c, Faulty);
  }

  /** So a two-step offset combines one master's two messages if and only if the parent is still the Sync's sender. */
  lemma FollowUpFitsIffSameParent(p: Port, c: Config, h: Header, origin: Time)
    requires Paired(p) && p.state == Slave && HandleFollowUp(p, c, h, origin) != p
    ensures OpenSync(p.log).Some? && OpenSync(p.log).value.SyncHeard?
    ensures var log := HandleFollowUp(p, c, h, origin).log;
      log != [] && Last(log).OffsetUpdate?
      && (Last(log).sender == OpenSync(p.log).value.sender <==> p.sets.parent.parent == OpenSync(p.log).value.sender)
  {
    hide OpenSync, WellPaired, Numbered, Sum;
  }
}
