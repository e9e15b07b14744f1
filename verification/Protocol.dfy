/**
 * The protocol object of esl/sw/protocol.cpp over the timer and clock objects it drives: each method against the
 * function of the state machine.
 */
module Protocol {
  import opened TimeArith
  import opened DataSets
  import opened Timers
  import opened ForeignMasters
  import opened Port
  import Bmc
  import PortRuns
  import Servo

  class PtpProtocol {
    const config: Config
    const timer: PtpTimer
    const clock: Bmc.PtpClock
    var options: Bmc.Options
    var recordUpdate: bool
    var masterHasSentAnnounce: bool
    var pair: Pairing
    ghost var log: seq<Action>
    ghost var heard: seq<Heard>

    ghost function Footprint(): set<object> {
      {this, timer, timer.itimer, clock, clock.table, clock.table.foreign}
    }

    ghost function Snapshot(): Port
      reads Footprint()
    {
      Port(clock.portState, clock.defaults, options, clock.sets, timer.Contents(), clock.table.Contents(), recordUpdate,
           masterHasSentAnnounce, pair, log, heard)
    }

    constructor (c: Config, t: PtpTimer, k: Bmc.PtpClock, o: Bmc.Options, p: Pairing)
      ensures config == c && timer == t && clock == k
      ensures Snapshot() == Port(k.portState, k.defaults, o, k.sets, t.Contents(), k.table.Contents(), false, false, p, [], [])
    {
      config, timer, clock, options := c, t, k, o;
      recordUpdate, masterHasSentAnnounce, pair, log, heard := false, false, p, [], [];
    }

    method LeaveState()
      modifies timer.itimer, this`log
      ensures Snapshot() == Leave(old(Snapshot()), config)
    {
      hide Stopped;
      match clock.portState {
        case Master =>
          timer.TimerStop(SYNC_INTERVAL);
          timer.TimerStop(ANNOUNCE_INTERVAL);
          timer.TimerStop(PDELAYREQ_INTERVAL);
        case Slave =>
          timer.TimerStop(ANNOUNCE_RECEIPT);
          if config.mechanism == Servo.E2E {
            timer.TimerStop(DELAYREQ_INTERVAL);
          } else if config.mechanism == Servo.P2P {
            timer.TimerStop(PDELAYREQ_INTERVAL);
          }
          log := log + [ServoInit];
        case Passive =>
          timer.TimerStop(PDELAYREQ_INTERVAL);
          timer.TimerStop(ANNOUNCE_RECEIPT);
        case Listening => timer.TimerStop(ANNOUNCE_RECEIPT);
        case _ =>
      }
    }

    method EnterListening()
      modifies timer.itimer, this`masterHasSentAnnounce, this`pair, clock`portState
      ensures Snapshot() == Enter(old(Snapshot()), config, Listening)
    {
      hide Stopped, Started;
      timer.TimerStop(SYNC_INTERVAL);
      timer.TimerStop(ANNOUNCE_INTERVAL);
      timer.TimerStop(PDELAYREQ_INTERVAL);
      timer.TimerStop(DELAYREQ_INTERVAL);
      if clock.portState != Listening {
        masterHasSentAnnounce := false;
      }
      pair := pair.(logMinDelayReqInterval := config.initialDelayReq);
      timer.TimerStart(ANNOUNCE_RECEIPT, config.listeningTicks);
      clock.portState := Listening;
    }

    method EnterMaster()
      modifies timer.itimer, clock`portState
      ensures Snapshot() == Enter(old(Snapshot()), config, Master)
    {
      hide Started;
      timer.TimerStart(SYNC_INTERVAL, config.syncTicks);
      timer.TimerStart(ANNOUNCE_INTERVAL, config.announceTicks);
      timer.TimerStart(PDELAYREQ_INTERVAL, config.pdelayTicks);
      clock.portState := Master;
    }

    method EnterPassive()
      modifies timer.itimer, clock`portState, clock`sets
      ensures Snapshot() == Enter(old(Snapshot()), config, Passive)
    {
      hide Started;
      timer.TimerStart(PDELAYREQ_INTERVAL, config.pdelayTicks);
      timer.TimerStart(ANNOUNCE_RECEIPT, config.receiptTicks);
      clock.portState := Passive;
      clock.P1(options);
    }

    method EnterSlave()
      modifies timer.itimer, clock`portState, this`pair, this`log
      ensures Snapshot() == Enter(old(Snapshot()), config, Slave)
    {
      hide Started;
      log := log + [ServoInit];
      pair := pair.(waitingForFollow := false);
      pair := pair.(waitingForDelayResp := false);
      pair := pair.(delayReqSendTime := ZERO, peer := Servo.PeerTimes(ZERO, ZERO, ZERO, ZERO));
      timer.TimerStart(OPERATOR_MESSAGES, config.operatorTicks);
      timer.TimerStart(ANNOUNCE_RECEIPT, config.receiptTicks);
      pair := pair.(waitingForFirstSync := true);
      clock.portState := Slave;
    }

    method EnterState(state: PortState)
      modifies timer.itimer, clock`portState, clock`sets, this`pair, this`log, this`masterHasSentAnnounce
      ensures Snapshot() == Enter(old(Snapshot()), config, state)
    {
      hide Stopped, Started, Restarted;
      match state {
        case Listening => EnterListening();
        case Master => EnterMaster();
        case Passive => EnterPassive();
        case Slave => EnterSlave();
        case PreMaster =>
        case _ => clock.portState := state;
      }
    }

    method GoTo(state: PortState)
      modifies timer.itimer, clock`portState, clock`sets, this`pair, this`log, this`masterHasSentAnnounce
      ensures Snapshot() == ToState(old(Snapshot()), config, state)
    {
      hide Leave, Enter;
      LeaveState();
      EnterState(state);
    }

    /** The sender is the current parent: the entry of the best master is overwritten. */
    method RefreshBest(r: Record)
      requires InBounds(clock.table.Contents())
      modifies clock.table.foreign
      ensures clock.table.Contents() == Refreshed(old(clock.table.Contents()), r)
    {
      var best := clock.table.foreignRecordBest;
      clock.table.foreign[best] := clock.table.foreign[best].(record := r);
    }

    method ReceiveAnnounce(r: Record)
      requires InBounds(clock.table.Contents())
      modifies this`recordUpdate, this`heard, clock`sets, timer.itimer, clock.table, clock.table.foreign
      ensures Snapshot() == HandleAnnounce(old(Snapshot()), config, r)
    {
      hide Started, Added, Refreshed, Bmc.FollowRecord;
      if clock.portState == Initializing || clock.portState == Faulty || clock.portState == DisabledState {
        return;
      }
      var isFromSelf := r.sender == PortIdentity(clock.defaults.identity, config.portNumber);
      if isFromSelf {
        return;
      }
      var isFromCurrentParent := clock.sets.parent.parent == r.sender;
      recordUpdate := true;
      if clock.portState == Slave || clock.portState == Uncalibrated {
        if isFromCurrentParent {
          clock.S1(r, options);
          RefreshBest(r);
        } else {
          clock.table.AddForeign(r);
        }
        heard := heard + [Heard(r, true)];
        timer.TimerStart(ANNOUNCE_RECEIPT, config.receiptTicks);
      } else if clock.portState == Passive && isFromCurrentParent {
        clock.S1(r, options);
        heard := heard + [Heard(r, false)];
        timer.TimerStart(ANNOUNCE_RECEIPT, config.receiptTicks);
      } else {
        clock.table.AddForeign(r);
        heard := heard + [Heard(r, true)];
      }
    }

    /** A slave starts to ask for the delay after its first Sync. */
    method StartRequests()
      modifies this`pair, timer.itimer
      ensures var p := old(Snapshot());
        Snapshot() == p.(pair := p.pair.(waitingForFirstSync := false), bank := RequestsStarted(p, config))
    {
      hide Started;
      if pair.waitingForFirstSync {
        pair := pair.(waitingForFirstSync := false);
        if config.mechanism == Servo.E2E {
          timer.TimerStart(DELAYREQ_INTERVAL, config.ticksOf(pair.logMinDelayReqInterval));
        } else if config.mechanism == Servo.P2P {
          timer.TimerStart(PDELAYREQ_INTERVAL, config.pdelayTicks);
        }
      }
    }

    method ReceiveSync(h: Header, origin: Time, stamp: Time)
      modifies this`pair, timer.itimer, this`log
      ensures Snapshot() == HandleSync(old(Snapshot()), config, h, origin, stamp)
    {
      hide RequestsStarted;
      if clock.portState != Slave && clock.portState != Uncalibrated {
        return;
      }
      if h.sender == PortIdentity(clock.defaults.identity, config.portNumber) || h.sender != clock.sets.parent.parent {
        return;
      }
      StartRequests();
      pair := pair.(syncReceiveTime := stamp);
      log := log + [SyncHeard(h.sender, h.sequence, stamp, h.correction, h.twoStep)];
      if h.twoStep {
        pair := pair.(waitingForFollow := true);
        pair := pair.(recvSyncSequenceId := h.sequence);
        pair := pair.(lastSyncCorrection := h.correction);
      } else {
        pair := pair.(waitingForFollow := false);
        log := log + [OffsetUpdate(h.sender, h.sequence, origin, pair.syncReceiveTime, h.correction, None)];
      }
    }

    method ReceiveFollowUp(h: Header, origin: Time)
      modifies this`pair, this`log
      ensures Snapshot() == HandleFollowUp(old(Snapshot()), config, h, origin)
    {
      hide Sum;
      if h.sender == PortIdentity(clock.defaults.identity, config.portNumber) {
        return;
      }
      if clock.portState == Slave || clock.portState == Uncalibrated {
        if clock.sets.parent.parent == h.sender && pair.waitingForFollow && pair.recvSyncSequenceId == h.sequence {
          pair := pair.(waitingForFollow := false);
          var correction := Sum(h.correction, pair.lastSyncCorrection);
          log := log + [OffsetUpdate(h.sender, h.sequence, origin, pair.syncReceiveTime, correction, Some(h.correction))];
        }
      }
    }

    method ReceiveDelayResp(h: Header, requester: PortIdentity, receipt: Time)
      modifies this`pair, this`log
      ensures Snapshot() == HandleDelayResp(old(Snapshot()), config, h, requester, receipt)
    {
      if clock.portState == Slave {
        var isFromCurrentParent := clock.sets.parent.parent == h.sender;
        if requester == PortIdentity(clock.defaults.identity, config.portNumber)
           && pair.sentDelayReqSequenceId - 1 == h.sequence && isFromCurrentParent {
          if !pair.waitingForDelayResp {
            return;
          }
          pair := pair.(waitingForDelayResp := false);
          log := log + [DelayUpdate(h.sequence, pair.delayReqSendTime, receipt, h.correction)];
          if !config.ignoreMasterInterval {
            pair := pair.(logMinDelayReqInterval := h.logInterval);
          } else {
            pair := pair.(logMinDelayReqInterval := config.subsequentDelayReq);
          }
        }
      }
    }

    method ReceivePDelayResp(h: Header, requester: PortIdentity, receipt: Time, stamp: Time)
      modifies this`pair, this`log
      ensures Snapshot() == HandlePDelayResp(old(Snapshot()), config, h, requester, receipt, stamp)
    {
      if clock.portState == Passive || clock.portState == Slave || clock.portState == Master {
        if pair.sentPDelayReqSequenceId - 1 == h.sequence
           && requester == PortIdentity(clock.defaults.identity, config.portNumber) {
          pair := pair.(peer := pair.peer.(respRecv := stamp));
          if h.twoStep {
            pair := pair.(peer := pair.peer.(reqRecv := receipt));
            pair := pair.(lastPDelayCorrection := h.correction);
          } else {
            log := log + [PeerDelayUpdate(pair.peer, h.correction, false)];
          }
          pair := pair.(recvPDelayRespSequenceId := h.sequence);
        }
      }
    }

    method ReceivePDelayRespFollowUp(h: Header, origin: Time)
      modifies this`pair, this`log
      ensures Snapshot() == HandlePDelayRespFollowUp(old(Snapshot()), h, origin)
    {
      hide Sum;
      if clock.portState == Slave || clock.portState == Master {
        if h.sequence == pair.sentPDelayReqSequenceId - 1 && h.sequence == pair.recvPDelayRespSequenceId {
          pair := pair.(peer := pair.peer.(respSend := origin));
          var correction := Sum(h.correction, pair.lastPDelayCorrection);
          log := log + [PeerDelayUpdate(pair.peer, correction, true)];
        }
      }
    }

    method SendDelayReq(input: Input)
      modifies timer.itimer, clock`portState, clock`sets, this`pair, this`log, this`masterHasSentAnnounce
      ensures Snapshot() == IssueDelayReq(old(Snapshot()), config, input)
    {
      hide Started, ToState, Sum;
      if !input.delayReqSent {
        GoTo(Faulty);
      } else {
        var seqId := pair.sentDelayReqSequenceId;
        if input.txStamp.Some? {
          pair := pair.(waitingForDelayResp := true);
          pair := pair.(delayReqSendTime := Sum(input.txStamp.value, config.outboundLatency));
          log := log + [DelayRequested(seqId, pair.delayReqSendTime)];
        } else {
          log := log + [BlindDelayRequest(seqId)];
        }
        pair := pair.(sentDelayReqSequenceId := NextId(seqId));
        timer.TimerStart(DELAYREQ_INTERVAL, input.delayTicks);
      }
    }

    method SendPDelayReq(input: Input)
      modifies timer.itimer, clock`portState, clock`sets, this`pair, this`log, this`masterHasSentAnnounce
      ensures Snapshot() == IssuePDelayReq(old(Snapshot()), config, input)
    {
      hide ToState, Sum;
      if !input.pdelayReqSent {
        GoTo(Faulty);
      } else {
        if input.txStamp.Some? {
          pair := pair.(peer := pair.peer.(reqSend := Sum(input.txStamp.value, config.outboundLatency)));
        }
        pair := pair.(sentPDelayReqSequenceId := NextId(pair.sentPDelayReqSequenceId));
      }
    }

    method Send(sent: bool)
      modifies timer.itimer, clock`portState, clock`sets, this`pair, this`log, this`masterHasSentAnnounce
      ensures Snapshot() == Issue(old(Snapshot()), config, sent)
    {
      hide ToState;
      if !sent {
        GoTo(Faulty);
      }
    }

    /** The interrupts that arrive before the poll, then the poll. */
    method TimerExpired(index: nat, alarms: nat) returns (expired: bool)
      modifies timer, timer.itimer
      ensures (Snapshot(), expired) == PollTimer(old(Snapshot()), index, alarms)
    {
      hide Polled;
      timer.Interrupts(alarms);
      expired := timer.TimerExpired(index, 0);
    }

    method Decide()
      requires InBounds(clock.table.Contents())
      modifies Footprint()
      ensures Snapshot() == StateDecision(old(Snapshot()), config)
    {
      hide ToState, RecordsOf, Bmc.Exec;
      if clock.portState == Listening || clock.portState == Passive || clock.portState == Slave || clock.portState == Master {
        if recordUpdate {
          recordUpdate := false;
          ghost var p := Snapshot();
          Bmc.ExecIgnoresScratch(p.state, p.d, p.o, RecordsOf(p.table), p.table.number, p.table.best, clock.msgTmp,
                                 RecordsOf(p.table)[0], p.sets);
          var state := clock.BmcExec(options);
          if state != clock.portState {
            GoTo(state);
          }
        }
      }
    }

    method HandleAnnounceTimeout()
      modifies Footprint()
      ensures Snapshot() == AnnounceTimeout(old(Snapshot()), config)
    {
      hide ToState, Bmc.BecomeMaster;
      clock.table.numberForeignRecords := 0;
      clock.table.foreignRecordI := 0;
      if !options.slaveOnly && clock.defaults.quality.clockClass != Bmc.SLAVE_ONLY_CLOCK_CLASS {
        clock.M1(options);
        GoTo(Master);
      } else {
        GoTo(Listening);
      }
    }

    method ReceiveMessage(m: Message, input: Input)
      requires InBounds(clock.table.Contents())
      modifies Footprint()
      ensures Snapshot() == HandleMessage(old(Snapshot()), config, m, input)
    {
      hide ToState, HandleAnnounce, HandleSync, HandleFollowUp, HandleDelayResp, HandlePDelayResp, HandlePDelayRespFollowUp;
      match m {
        case AnnounceMsg(r) => ReceiveAnnounce(r);
        case SyncMsg(h, origin, stamp) => ReceiveSync(h, origin, stamp);
        case FollowUpMsg(h, origin) => ReceiveFollowUp(h, origin);
        case DelayReqMsg(h) =>
          if clock.portState == Master {
            if !input.replySent {
              GoTo(Faulty);
            }
          }
        case DelayRespMsg(h, requester, receipt) => ReceiveDelayResp(h, requester, receipt);
        case PDelayReqMsg(h) =>
          if clock.portState == Slave || clock.portState == Master || clock.portState == Passive {
            if h.sender != PortIdentity(clock.defaults.identity, config.portNumber) && !input.replySent {
              GoTo(Faulty);
            }
          }
        case PDelayRespMsg(h, requester, receipt, stamp) => ReceivePDelayResp(h, requester, receipt, stamp);
        case PDelayRespFollowUpMsg(h, origin) => ReceivePDelayRespFollowUp(h, origin);
        case OtherMsg =>
      }
    }

    method Receive(input: Input)
      requires InBounds(clock.table.Contents())
      modifies Footprint()
      ensures Snapshot() == Handle(old(Snapshot()), config, input)
    {
      hide ToState, HandleMessage, Considered;
      match input.received {
        case Nothing =>
        case OtherVersionOrDomain =>
        case ReceiveError => GoTo(Faulty);
        case ShortHeader => GoTo(Faulty);
        case Got(m, short) =>
          if Considered(config, m) {
            if short {
              GoTo(Faulty);
            } else {
              ReceiveMessage(m, input);
            }
          }
      }
    }

    method HandleSlaveTimers(input: Input)
      modifies Footprint()
      ensures Snapshot() == SlaveTimers(old(Snapshot()), config, input)
    {
      hide PollTimer, AnnounceTimeout, IssueDelayReq, IssuePDelayReq;
      var expired := TimerExpired(ANNOUNCE_RECEIPT, input.alarms.0);
      if expired {
        HandleAnnounceTimeout();
      }
      expired := TimerExpired(OPERATOR_MESSAGES, input.alarms.1);
      if config.mechanism == Servo.E2E {
        expired := TimerExpired(DELAYREQ_INTERVAL, input.alarms.2);
        if expired {
          SendDelayReq(input);
        }
      } else if config.mechanism == Servo.P2P {
        expired := TimerExpired(PDELAYREQ_INTERVAL, input.alarms.2);
        if expired {
          SendPDelayReq(input);
        }
      }
    }

    method SendFirstAnnounce(sent: bool)
      modifies timer.itimer, clock`portState, clock`sets, this`pair, this`log, this`masterHasSentAnnounce
      ensures var p := old(Snapshot());
        Snapshot() == if p.announced then p else Issue(p, config, sent).(announced := true)
    {
      hide Issue;
      if !masterHasSentAnnounce {
        Send(sent);
        masterHasSentAnnounce := true;
      }
    }

    /** Sends a message of the master when its interval is over. */
    method SendAtInterval(index: nat, alarms: nat, sent: bool)
      modifies Footprint()
      ensures var (p, expired) := PollTimer(old(Snapshot()), index, alarms);
        Snapshot() == if expired then Issue(p, config, sent) else p
    {
      hide PollTimer, Issue;
      var expired := TimerExpired(index, alarms);
      if expired {
        Send(sent);
      }
    }

    method SendMasterMessages(input: Input)
      modifies Footprint()
      ensures Snapshot() == MasterMessages(old(Snapshot()), config, input)
    {
      hide PollTimer, Issue;
      SendFirstAnnounce(input.announceSent);
      SendAtInterval(SYNC_INTERVAL, input.alarms.0, input.syncSent);
      SendAtInterval(ANNOUNCE_INTERVAL, input.alarms.1, input.announceSent);
    }

    method HandleMasterTimers(input: Input)
      modifies Footprint()
      ensures Snapshot() == MasterTimers(old(Snapshot()), config, input)
    {
      hide PollTimer, MasterMessages, IssuePDelayReq;
      SendMasterMessages(input);
      if config.mechanism == Servo.P2P {
        var expired := TimerExpired(PDELAYREQ_INTERVAL, input.alarms.2);
        if expired {
          SendPDelayReq(input);
        }
      }
    }

    /** One pass: decide, then act and listen according to the state. */
    method DoPass(input: Input)
      requires InBounds(clock.table.Contents())
      modifies Footprint()
      ensures Snapshot() == DoState(old(Snapshot()), config, input)
    {
      hide StateDecision, ToState, Handle, SlaveTimers, MasterTimers;
      DecisionInBounds(Snapshot(), config);
      Decide();
      match clock.portState {
        case Faulty => GoTo(Initializing);
        case Listening =>
          Receive(input);
          HandleSlaveTimers(input);
        case Uncalibrated =>
          Receive(input);
          HandleSlaveTimers(input);
        case Slave =>
          Receive(input);
          HandleSlaveTimers(input);
        case Passive =>
          Receive(input);
          HandleSlaveTimers(input);
        case Master =>
          TimersKeepTable(Snapshot(), config, input);
          HandleMasterTimers(input);
          Receive(input);
          if options.slaveOnly || clock.defaults.quality.clockClass == Bmc.SLAVE_ONLY_CLOCK_CLASS {
            GoTo(Listening);
          }
        case DisabledState => Receive(input);
        case _ =>
      }
    }

    method Initialize(input: Input)
      modifies Footprint()
      ensures Snapshot() == DoInit(old(Snapshot()), config, input)
    {
      hide ToState, Bmc.BecomeMaster, Bmc.InitDefault;
      if !input.netInit {
        GoTo(Faulty);
        return;
      }
      var (d, o) := Bmc.InitDefault(options, clock.defaults.identity);
      clock.defaults, options := d, o;
      clock.table.numberForeignRecords := 0;
      timer.elapsed := 0;
      log := log + [ServoInit];
      clock.M1(options);
      GoTo(Listening);
    }

    /** One turn of the main loop; false if it was an initialisation that failed. */
    method Pass(input: Input) returns (ok: bool)
      requires InBounds(clock.table.Contents())
      modifies Footprint()
      ensures Snapshot() == Step(old(Snapshot()), config, input)
      ensures ok <==> old(clock.portState) != Initializing || input.netInit
    {
      hide DoInit, DoState;
      ok := true;
      if clock.portState == Initializing {
        Initialize(input);
        ok := input.netInit;
      } else {
        DoPass(input);
      }
    }

    /** The port as the main loop sets it off. */
    ghost function Start(p: Port): Port { ToState(p, config, Initializing) }

    lemma NoPasses(start: Port, inputs: seq<Input>)
      requires InBounds(start.table)
      ensures PortRuns.Run(start, config, inputs[..0]) == start
    {}

    /**
     * The main loop over so many passes; it ends early when the network cannot be opened. The port that the objects
     * make up then stands where the state machine stands after the same passes.
     */
    method ProtocolExec(inputs: seq<Input>) returns (passes: nat)
      requires InBounds(clock.table.Contents())
      modifies Footprint()
      ensures passes <= |inputs| && (passes < |inputs| ==> passes > 0 && !inputs[passes - 1].netInit)
      ensures Start(old(Snapshot())).table == old(Snapshot()).table
      ensures Snapshot() == PortRuns.Run(Start(old(Snapshot())), config, inputs[..passes])
    {
      hide PortRuns.Run, Step, ToState, DoInit, DoState;
      ghost var start := Start(Snapshot());
      ToStateKeeps(Snapshot(), config, Initializing);
      GoTo(Initializing);
      passes := 0;
      NoPasses(start, inputs);
      while passes < |inputs|
        invariant passes <= |inputs| && InBounds(Snapshot().table)
        invariant Snapshot() == PortRuns.Run(start, config, inputs[..passes])
      {
        var input := inputs[passes];
        PortRuns.RunAppend(start, config, inputs[..passes], input);
        assert inputs[..passes] + [input] == inputs[..passes + 1];
        PortRuns.StepInBounds(Snapshot(), config, input);
        passes := passes + 1;
        var ok := Pass(input);
        if !ok {
          return;
        }
      }
    }
  }
}
