/** Why each action of a run happened: which message, and what in it, or which request. */
module PortLog {
  import opened Bits
  import opened TimeArith
  import opened DataSets
  import opened Timers
  import opened ForeignMasters
  import opened Port
  import opened PortInvariants
  import opened PortRuns
  import Bmc
  import Servo

  /** The message of a pass. */
  function Brought(input: Input): Message {
    if input.received.Got? && !input.received.short then input.received.m else OtherMsg
  }

  /**
   * What an action takes from the pass that logs it. A Sync update uses origin and correction of that Sync, or origin and
   * correction of the Follow_Up; a delay update receipt and correction of the answer; a request its transmit timestamp.
   */
  predicate Justified(c: Config, input: Input, a: Action) {
    var m := Brought(input);
    match a {
      case ServoInit => true
      case SyncHeard(sender, sequence, received, correction, twoStep) =>
        m.SyncMsg? && m.stamp == received && m.h.sender == sender && m.h.sequence == sequence
        && m.h.correction == correction && m.h.twoStep == twoStep
      case OffsetUpdate(sender, sequence, send, received, correction, followUp) =>
        if followUp == None then
          m.SyncMsg? && m.origin == send && m.stamp == received && m.h.sender == sender && m.h.sequence == sequence
          && m.h.correction == correction && !m.h.twoStep
        else
          m.FollowUpMsg? && m.origin == send && m.h.sender == sender && m.h.sequence == sequence
          && followUp == Some(m.h.correction)
      case DelayRequested(_, sent) =>
        input.delayReqSent && input.txStamp.Some? && sent == Sum(input.txStamp.value, c.outboundLatency)
      case BlindDelayRequest(_) => input.delayReqSent && input.txStamp == None
      case DelayUpdate(sequence, _, received, correction) =>
        m.DelayRespMsg? && m.receipt == received && m.h.sequence == sequence && m.h.correction == correction
      case PeerDelayUpdate(times, correction, twoStep) =>
        if twoStep then m.PDelayRespFollowUpMsg? && m.origin == times.respSend
        else m.PDelayRespMsg? && m.stamp == times.respRecv && m.h.correction == correction && !m.h.twoStep
    }
  }

  /** A pass with this input turned one log into the other, with every new action justified. */
  predicate Grows(before: seq<Action>, after: seq<Action>, c: Config, input: Input) {
    |before| <= |after| && after[..|before|] == before
    && forall k :: |before| <= k < |after| ==> Justified(c, input, after[k])
  }

  lemma GrowsNot(log: seq<Action>, c: Config, input: Input)
    ensures Grows(log, log, c, input)
  {}

  lemma GrowsByOne(log: seq<Action>, a: Action, c: Config, input: Input)
    requires Justified(c, input, a)
    ensures Grows(log, log + [a], c, input)
  {}

  lemma GrowsTwice(x: seq<Action>, y: seq<Action>, z: seq<Action>, c: Config, input: Input)
    requires Grows(x, y, c, input) && Grows(y, z, c, input)
    ensures Grows(x, z, c, input)
  {
    hide Justified;
    assert z[..|x|] == z[..|y|][..|x|];
    forall k | |x| <= k < |z|
      ensures Justified(c, input, z[k])
    {
      if k < |y| {
        assert z[k] == z[..|y|][k] == y[k];
      }
    }
  }

  lemma StateChangeGrows(p: Port, c: Config, s: PortState, input: Input)
    ensures Grows(p.log, ToState(p, c, s).log, c, input)
  {
    hide Stopped, Started, Grows;
    GrowsNot(p.log, c, input);
    GrowsByOne(p.log, ServoInit, c, input);
    GrowsByOne(p.log + [ServoInit], ServoInit, c, input);
    GrowsTwice(p.log, p.log + [ServoInit], p.log + [ServoInit] + [ServoInit], c, input);
  }

  lemma DecisionGrows(p: Port, c: Config, input: Input)
    requires InBounds(p.table)
    ensures Grows(p.log, StateDecision(p, c).log, c, input)
  {
    hide ToState, Grows, Bmc.Exec, RecordsOf;
    GrowsNot(p.log, c, input);
    if p.recordUpdate && Deciding(p.state) {
      var (decided, sets, best) :=
        Bmc.Exec(p.state, p.d, p.o, RecordsOf(p.table), p.table.number, p.table.best, RecordsOf(p.table)[0], p.sets);
      StateChangeGrows(p.(recordUpdate := false, sets := sets, table := p.table.(best := best)), c, decided, input);
    }
  }

  lemma SyncGrows(p: Port, c: Config, h: Header, origin: Time, stamp: Time, input: Input)
    requires Brought(input) == SyncMsg(h, origin, stamp)
    ensures Grows(p.log, HandleSync(p, c, h, origin, stamp).log, c, input)
  {
    hide Grows, RequestsStarted;
    var heard := SyncHeard(h.sender, h.sequence, stamp, h.correction, h.twoStep);
    GrowsNot(p.log, c, input);
    GrowsByOne(p.log, heard, c, input);
    if !h.twoStep {
      var update := OffsetUpdate(h.sender, h.sequence, origin, stamp, h.correction, None);
      GrowsByOne(p.log + [heard], update, c, input);
      GrowsTwice(p.log, p.log + [heard], p.log + [heard] + [update], c, input);
    }
  }

  lemma FollowUpGrows(p: Port, c: Config, h: Header, origin: Time, input: Input)
    requires Brought(input) == FollowUpMsg(h, origin)
    ensures Grows(p.log, HandleFollowUp(p, c, h, origin).log, c, input)
  {
    hide Grows, Sum;
    GrowsNot(p.log, c, input);
    GrowsByOne(p.log, OffsetUpdate(h.sender, h.sequence, origin, p.pair.syncReceiveTime,
                                   Sum(h.correction, p.pair.lastSyncCorrection), Some(h.correction)), c, input);
  }

  lemma DelayRespGrows(p: Port, c: Config, h: Header, requester: PortIdentity, receipt: Time, input: Input)
    requires Brought(input) == DelayRespMsg(h, requester, receipt)
    ensures Grows(p.log, HandleDelayResp(p, c, h, requester, receipt).log, c, input)
  {
    hide Grows;
    GrowsNot(p.log, c, input);
    GrowsByOne(p.log, DelayUpdate(h.sequence, p.pair.delayReqSendTime, receipt, h.correction), c, input);
  }

  lemma PDelayRespGrows(p: Port, c: Config, h: Header, requester: PortIdentity, receipt: Time, stamp: Time, input: Input)
    requires Brought(input) == PDelayRespMsg(h, requester, receipt, stamp)
    ensures Grows(p.log, HandlePDelayResp(p, c, h, requester, receipt, stamp).log, c, input)
  {
    hide Grows;
    GrowsNot(p.log, c, input);
    if !h.twoStep {
      GrowsByOne(p.log, PeerDelayUpdate(p.pair.peer.(respRecv := stamp), h.correction, false), c, input);
    }
  }

  lemma PDelayFollowUpGrows(p: Port, c: Config, h: Header, origin: Time, input: Input)
    requires Brought(input) == PDelayRespFollowUpMsg(h, origin)
    ensures Grows(p.log, HandlePDelayRespFollowUp(p, h, origin).log, c, input)
  {
    hide Grows, Sum;
    GrowsNot(p.log, c, input);
    GrowsByOne(p.log, PeerDelayUpdate(p.pair.peer.(respSend := origin),
                                      Sum(h.correction, p.pair.lastPDelayCorrection), true), c, input);
  }

  lemma HandleGrows(p: Port, c: Config, input: Input)
    requires InBounds(p.table)
    ensures Grows(p.log, Handle(p, c, input).log, c, input)
  {
    hide Grows, ToState, HandleSync, HandleFollowUp, HandleDelayResp, HandlePDelayResp, HandlePDelayRespFollowUp;
    hide Started, Added, Refreshed, Bmc.FollowRecord;
    GrowsNot(p.log, c, input);
    StateChangeGrows(p, c, Faulty, input);
    if input.received.Got? && !input.received.short {
      match input.received.m {
        case SyncMsg(h, origin, stamp) => SyncGrows(p, c, h, origin, stamp, input);
        case FollowUpMsg(h, origin) => FollowUpGrows(p, c, h, origin, input);
        case DelayRespMsg(h, requester, receipt) => DelayRespGrows(p, c, h, requester, receipt, input);
        case PDelayRespMsg(h, requester, receipt, stamp) => PDelayRespGrows(p, c, h, requester, receipt, stamp, input);
        case PDelayRespFollowUpMsg(h, origin) => PDelayFollowUpGrows(p, c, h, origin, input);
        case _ =>
      }
    }
  }

  lemma IssueGrows(p: Port, c: Config, input: Input, sent: bool)
    ensures Grows(p.log, Issue(p, c, sent).log, c, input) && Grows(p.log, IssueDelayReq(p, c, input).log, c, input)
    ensures Grows(p.log, IssuePDelayReq(p, c, input).log, c, input)
  {
    hide Grows, ToState, Started, Sum;
    GrowsNot(p.log, c, input);
    StateChangeGrows(p, c, Faulty, input);
    if input.delayReqSent {
      match input.txStamp {
        case Some(t) =>
          GrowsByOne(p.log, DelayRequested(p.pair.sentDelayReqSequenceId, Sum(t, c.outboundLatency)), c, input);
        case None => GrowsByOne(p.log, BlindDelayRequest(p.pair.sentDelayReqSequenceId), c, input);
      }
    }
  }

  lemma TimeoutGrows(p: Port, c: Config, input: Input)
    ensures Grows(p.log, AnnounceTimeout(p, c).log, c, input)
  {
    hide Grows, ToState, Bmc.BecomeMaster;
    var q := p.(table := Emptied(p.table));
    StateChangeGrows(q, c, Listening, input);
    StateChangeGrows(q.(sets := Bmc.BecomeMaster(p.d, p.o, p.sets)), c, Master, input);
  }

  lemma PollKeepsLog(p: Port, timer: nat, alarms: nat)
    ensures PollTimer(p, timer, alarms).0.log == p.log
  {
    hide Polled;
  }

  lemma SlaveTimersGrow(p: Port, c: Config, input: Input)
    ensures Grows(p.log, SlaveTimers(p, c, input).log, c, input)
  {
    hide Grows, PollTimer, AnnounceTimeout, IssueDelayReq, IssuePDelayReq;
    GrowsNot(p.log, c, input);
    PollKeepsLog(p, ANNOUNCE_RECEIPT, input.alarms.0);
    var (p1, receipt) := PollTimer(p, ANNOUNCE_RECEIPT, input.alarms.0);
    TimeoutGrows(p1, c, input);
    var p2 := if receipt then AnnounceTimeout(p1, c) else p1;
    PollKeepsLog(p2, OPERATOR_MESSAGES, input.alarms.1);
    var p3 := PollTimer(p2, OPERATOR_MESSAGES, input.alarms.1).0;
    PollKeepsLog(p3, DELAYREQ_INTERVAL, input.alarms.2);
    var p4 := PollTimer(p3, DELAYREQ_INTERVAL, input.alarms.2).0;
    IssueGrows(p4, c, input, true);
    GrowsTwice(p.log, p4.log, IssueDelayReq(p4, c, input).log, c, input);
    PollKeepsLog(p3, PDELAYREQ_INTERVAL, input.alarms.2);
    var p5 := PollTimer(p3, PDELAYREQ_INTERVAL, input.alarms.2).0;
    IssueGrows(p5, c, input, true);
    GrowsTwice(p.log, p5.log, IssuePDelayReq(p5, c, input).log, c, input);
  }

  lemma MasterMessagesGrow(p: Port, c: Config, input: Input)
    ensures Grows(p.log, MasterMessages(p, c, input).log, c, input)
  {
    hide Grows, PollTimer, Issue;
    GrowsNot(p.log, c, input);
    IssueGrows(p, c, input, input.announceSent);
    var p0 := if p.announced then p else Issue(p, c, input.announceSent).(announced := true);
    PollKeepsLog(p0, SYNC_INTERVAL, input.alarms.0);
    var (p1, sync) := PollTimer(p0, SYNC_INTERVAL, input.alarms.0);
    IssueGrows(p1, c, input, input.syncSent);
    GrowsTwice(p.log, p1.log, Issue(p1, c, input.syncSent).log, c, input);
    var p2 := if sync then Issue(p1, c, input.syncSent) else p1;
    PollKeepsLog(p2, ANNOUNCE_INTERVAL, input.alarms.1);
    var p3 := PollTimer(p2, ANNOUNCE_INTERVAL, input.alarms.1).0;
    IssueGrows(p3, c, input, input.announceSent);
    GrowsTwice(p.log, p3.log, Issue(p3, c, input.announceSent).log, c, input);
  }

  lemma MasterTimersGrow(p: Port, c: Config, input: Input)
    ensures Grows(p.log, MasterTimers(p, c, input).log, c, input)
  {
    hide Grows, PollTimer, MasterMessages, IssuePDelayReq;
    MasterMessagesGrow(p, c, input);
    var q := MasterMessages(p, c, input);
    PollKeepsLog(q, PDELAYREQ_INTERVAL, input.alarms.2);
    var r := PollTimer(q, PDELAYREQ_INTERVAL, input.alarms.2).0;
    IssueGrows(r, c, input, true);
    GrowsTwice(p.log, r.log, IssuePDelayReq(r, c, input).log, c, input);
  }

  lemma InitGrows(p: Port, c: Config, input: Input)
    ensures Grows(p.log, DoInit(p, c, input).log, c, input)
  {
    hide Grows, ToState, Bmc.BecomeMaster, Bmc.InitDefault;
    StateChangeGrows(p, c, Faulty, input);
    var (d, o) := Bmc.InitDefault(p.o, p.d.identity);
    var q := p.(d := d, o := o, table := Reinitialized(p.table), bank := p.bank.(elapsed := 0),
                log := p.log + [ServoInit], sets := Bmc.BecomeMaster(d, o, p.sets));
    GrowsByOne(p.log, ServoInit, c, input);
    StateChangeGrows(q, c, Listening, input);
    GrowsTwice(p.log, q.log, ToState(q, c, Listening).log, c, input);
  }

  /** Every action of a pass is justified by the input of that pass. */
  lemma StepGrows(p: Port, c: Config, input: Input)
    requires InBounds(p.table)
    ensures Grows(p.log, Step(p, c, input).log, c, input)
  {
    hide Grows, StateDecision, ToState, Handle, SlaveTimers, MasterTimers, DoInit;
    if p.state == Initializing {
      InitGrows(p, c, input);
    } else {
      DecisionInBounds(p, c);
      DecisionGrows(p, c, input);
      var q := StateDecision(p, c);
      StateChangeGrows(q, c, Initializing, input);
      GrowsTwice(p.log, q.log, ToState(q, c, Initializing).log, c, input);
      HandleGrows(q, c, input);
      var r := Handle(q, c, input);
      GrowsTwice(p.log, q.log, r.log, c, input);
      SlaveTimersGrow(r, c, input);
      GrowsTwice(p.log, r.log, SlaveTimers(r, c, input).log, c, input);
      if q.state == Master {
        MasterPassGrows(p, q, c, input);
      }
    }
  }

  lemma MasterPassGrows(p: Port, q: Port, c: Config, input: Input)
    requires InBounds(q.table) && Grows(p.log, q.log, c, input)
    ensures InBounds(MasterTimers(q, c, input).table)
    ensures var r := Handle(MasterTimers(q, c, input), c, input);
      Grows(p.log, r.log, c, input) && Grows(p.log, ToState(r, c, Listening).log, c, input)
  {
    hide Grows, ToState, Handle, MasterTimers;
    TimersKeepTable(q, c, input);
    MasterTimersGrow(q, c, input);
    var m := MasterTimers(q, c, input);
    GrowsTwice(p.log, q.log, m.log, c, input);
    HandleGrows(m, c, input);
    var r := Handle(m, c, input);
    GrowsTwice(p.log, m.log, r.log, c, input);
    StateChangeGrows(r, c, Listening, input);
    GrowsTwice(p.log, r.log, ToState(r, c, Listening).log, c, input);
  }

  /** Every action that a run adds to the log is justified by the input of one of its passes. */
  lemma {:induction false} RunIsJustified(p: Port, c: Config, inputs: seq<Input>, i: nat) returns (k: nat)
    requires InBounds(p.table) && |p.log| <= i < |PortRuns.Run(p, c, inputs).log|
    ensures k < |inputs| && Justified(c, inputs[k], PortRuns.Run(p, c, inputs).log[i])
    decreases |inputs|
  {
    hide Step, Justified;
    assert inputs != [];
    StepInBounds(p, c, inputs[0]);
    StepGrows(p, c, inputs[0]);
    var q := Step(p, c, inputs[0]);
    if i < |q.log| {
      RunExtends(q, c, inputs[1..]);
      k := 0;
    } else {
      var m := RunIsJustified(q, c, inputs[1..], i);
      k := m + 1;
    }
  }

  lemma {:induction false} RunExtends(p: Port, c: Config, inputs: seq<Input>)
    requires InBounds(p.table)
    ensures var q := PortRuns.Run(p, c, inputs); |p.log| <= |q.log| && forall i :: 0 <= i < |p.log| ==> q.log[i] == p.log[i]
    decreases |inputs|
  {
    if inputs != [] {
      hide Step, Justified;
      StepInBounds(p, c, inputs[0]);
      StepGrows(p, c, inputs[0]);
      var q := Step(p, c, inputs[0]);
      RunExtends(q, c, inputs[1..]);
      assert forall i :: 0 <= i < |p.log| ==> q.log[i] == q.log[..|p.log|][i];
    }
  }

  /**
   * So in every run from power-up an offset update takes its send time from the Sync that arrived in its pass, one-step,
   * or from the Follow_Up that did; with it, it measures delay plus offset of its own Sync.
   */
  lemma EveryOffsetUsesOrigin(p: Port, c: Config, inputs: seq<Input>, i: nat) returns (k: nat)
    requires PoweredUp(p) && i < |PortRuns.Run(p, c, inputs).log| && PortRuns.Run(p, c, inputs).log[i].OffsetUpdate?
    ensures k < |inputs|
    ensures var a, m := PortRuns.Run(p, c, inputs).log[i], Brought(inputs[k]);
      if a.followUp == None then
        m.SyncMsg? && !m.h.twoStep && a == OffsetUpdate(m.h.sender, m.h.sequence, m.origin, m.stamp, m.h.correction, None)
      else
        m.FollowUpMsg? && a.sender == m.h.sender && a.sequence == m.h.sequence && a.send == m.origin
        && a.followUp == Some(m.h.correction)
  {
    hide PortRuns.Run;
    k := RunIsJustified(p, c, inputs, i);
  }
}
