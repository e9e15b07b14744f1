/** What the entries of the foreign-master table are worth: which Announce of which sender each one holds, in every run. */
module PortTable {
  import opened Bits
  import opened TimeArith
  import opened DataSets
  import opened Timers
  import opened ForeignMasters
  import opened Port
  import opened PortInvariants
  import opened PortRuns
  import Bmc
  import Servo

  /** The latest accepted Announce of a sender. */
  function LatestHeard(heard: seq<Heard>, key: PortIdentity): Option<Heard> {
    if heard == [] then None
    else
      var last := heard[|heard| - 1];
      if last.record.sender == key then Some(last) else LatestHeard(heard[..|heard| - 1], key)
  }

  /** The latest one that the table took. */
  function LatestStored(heard: seq<Heard>, key: PortIdentity): Option<Record> {
    if heard == [] then None
    else
      var last := heard[|heard| - 1];
      if last.record.sender == key && last.stored then Some(last.record) else LatestStored(heard[..|heard| - 1], key)
  }

  lemma HeardOneMore(heard: seq<Heard>, h: Heard, key: PortIdentity)
    ensures LatestStored(heard + [h], key) ==
      if h.record.sender == key && h.stored then Some(h.record) else LatestStored(heard, key)
    ensures LatestHeard(heard + [h], key) == if h.record.sender == key then Some(h) else LatestHeard(heard, key)
  {
    assert (heard + [h])[..|heard + [h]| - 1] == heard;
  }

  /** Every entry in use holds the latest Announce of its key that the table took. */
  predicate Current(p: Port) {
    p.table.number <= |p.table.entries|
    && forall i :: 0 <= i < p.table.number ==>
         LatestStored(p.heard, p.table.entries[i].key) == Some(p.table.entries[i].record)
  }

  // ---- One Announce

  /** An Announce is accepted unless the port ignores all messages or sent it itself, and then heard exactly once. */
  lemma AnnounceAcceptedIff(p: Port, c: Config, r: Record)
    requires InBounds(p.table)
    ensures var q := HandleAnnounce(p, c, r);
      if Disregards(p.state) || r.sender == OwnPort(p, c) then q == p
      else q.recordUpdate && q.heard == p.heard + [Heard(r, !(p.state == Passive && FromParent(p, r.sender)))]
           && q.state == p.state
  {
    hide Started, Added, Refreshed, Bmc.FollowRecord;
  }

  /** It updates its sender's entry and no other, unless a port in PASSIVE hears its parent: then it updates none. */
  lemma AnnounceUpdatesIff(p: Port, c: Config, r: Record)
    requires Tidy(p) && !p.recordUpdate && p.state != Uncalibrated && !Disregards(p.state) && r.sender != OwnPort(p, c)
    requires p.state == Slave && FromParent(p, r.sender) ==> p.table.number > 0
    ensures InBounds(p.table) && InBounds(HandleAnnounce(p, c, r).table)
    ensures var q := HandleAnnounce(p, c, r);
      if p.state == Passive && FromParent(p, r.sender) then q.table == p.table
      else Proper(q.table) && Updates(p.table, q.table, r)
  {
    hide Started, Added, Refreshed, Bmc.FollowRecord, Updates, Proper;
    ProperIsInBounds(p.table);
    AddedIsProper(p.table, r);
    AddedUpdates(p.table, r);
    ProperIsInBounds(Added(p.table, r));
    if p.state == Slave && FromParent(p, r.sender) {
      RefreshedIsProper(p.table, r);
      RefreshedUpdates(p.table, r);
    }
  }

  /** A slave or passive port that hears its parent takes over its data at once. */
  lemma ParentIsFollowed(p: Port, c: Config, r: Record)
    requires InBounds(p.table) && (p.state == Slave || p.state == Passive) && FromParent(p, r.sender)
    requires r.sender != OwnPort(p, c)
    ensures var q := HandleAnnounce(p, c, r);
      && q.sets.parent == Bmc.FollowRecord(p.state, p.o, r, p.sets).parent && q.sets.parent.parent == p.sets.parent.parent
      && q.sets.parent.grandmaster == r.announce.grandmaster
      && q.sets.current.stepsRemoved == (r.announce.stepsRemoved + 1) % 0x1_0000
  {
    hide Started, Added, Refreshed;
  }

  lemma UpdatedIsCurrent(p: Port, q: Port, r: Record)
    requires Current(p) && InBounds(p.table) && Proper(q.table) && Updates(p.table, q.table, r)
    requires q.heard == p.heard + [Heard(r, true)]
    ensures Current(q)
  {
    forall i | 0 <= i < q.table.number
      ensures LatestStored(q.heard, q.table.entries[i].key) == Some(q.table.entries[i].record)
    {
      HeardOneMore(p.heard, Heard(r, true), q.table.entries[i].key);
    }
  }

  lemma AnnounceCurrent(p: Port, c: Config, r: Record)
    requires Tidy(p) && !p.recordUpdate && p.state != Uncalibrated && Current(p)
    ensures InBounds(p.table) && Current(HandleAnnounce(p, c, r))
  {
    hide Added, Refreshed, Proper, Updates, HandleAnnounce, Current, Tidy;
    TidyInBounds(p);
    AnnounceAcceptedIff(p, c, r);
    if !Disregards(p.state) && r.sender != OwnPort(p, c) {
      if p.state == Slave && FromParent(p, r.sender) && p.table.number == 0 {
        EmptyStaysEmpty(p, c, r);
        EmptyIsCurrent(HandleAnnounce(p, c, r));
      } else {
        AnnounceUpdatesIff(p, c, r);
        if p.state == Passive && FromParent(p, r.sender) {
          UnstoredIsCurrent(p, HandleAnnounce(p, c, r), r);
        } else {
          UpdatedIsCurrent(p, HandleAnnounce(p, c, r), r);
        }
      }
    }
  }

  lemma EmptyStaysEmpty(p: Port, c: Config, r: Record)
    requires InBounds(p.table) && p.state == Slave && FromParent(p, r.sender) && p.table.number == 0
    ensures HandleAnnounce(p, c, r).table.number == 0
  {
    hide Started, Added, Bmc.FollowRecord;
  }

  lemma EmptyIsCurrent(p: Port)
    requires p.table.number == 0
    ensures Current(p)
  {}

  lemma UnstoredIsCurrent(p: Port, q: Port, r: Record)
    requires Current(p) && q.table == p.table && q.heard == p.heard + [Heard(r, false)]
    ensures Current(q)
  {
    forall i | 0 <= i < q.table.number
      ensures LatestStored(q.heard, q.table.entries[i].key) == Some(q.table.entries[i].record)
    {
      HeardOneMore(p.heard, Heard(r, false), q.table.entries[i].key);
    }
  }

  // ---- Passes and runs

  /** Nothing heard, and the entries in use kept or all forgotten. */
  predicate Undisturbed(p: Port, q: Port) {
    q.heard == p.heard
    && (q.table.number == 0 || (q.table.entries == p.table.entries && q.table.number == p.table.number))
  }

  lemma UndisturbedIsCurrent(p: Port, q: Port)
    requires Current(p) && Undisturbed(p, q)
    ensures Current(q)
  {}

  lemma StateChangeUndisturbed(p: Port, c: Config, s: PortState)
    ensures Undisturbed(p, ToState(p, c, s))
  {
    hide ToState;
    ToStateKeeps(p, c, s);
  }

  lemma DecisionUndisturbed(p: Port, c: Config)
    requires InBounds(p.table)
    ensures Undisturbed(p, StateDecision(p, c))
  {
    hide ToState, Bmc.Exec, RecordsOf;
    if p.recordUpdate && Deciding(p.state) {
      var (decided, sets, best) :=
        Bmc.Exec(p.state, p.d, p.o, RecordsOf(p.table), p.table.number, p.table.best, RecordsOf(p.table)[0], p.sets);
      ToStateKeeps(p.(recordUpdate := false, sets := sets, table := p.table.(best := best)), c, decided);
    }
  }

  lemma IssueUndisturbed(p: Port, c: Config, input: Input, sent: bool)
    ensures Undisturbed(p, Issue(p, c, sent)) && Undisturbed(p, IssueDelayReq(p, c, input))
    ensures Undisturbed(p, IssuePDelayReq(p, c, input))
  {
    hide ToState, Started, Sum;
    ToStateKeeps(p, c, Faulty);
  }

  lemma PollUndisturbed(p: Port, timer: nat, alarms: nat)
    ensures Undisturbed(p, PollTimer(p, timer, alarms).0)
  {
    hide Polled;
  }

  lemma TimeoutUndisturbed(p: Port, c: Config)
    ensures Undisturbed(p, AnnounceTimeout(p, c))
  {
    hide ToState, Bmc.BecomeMaster;
    var q := p.(table := Emptied(p.table));
    ToStateKeeps(q, c, Listening);
    ToStateKeeps(q.(sets := Bmc.BecomeMaster(p.d, p.o, p.sets)), c, Master);
  }

  lemma SlaveTimersUndisturbed(p: Port, c: Config, input: Input)
    ensures Undisturbed(p, SlaveTimers(p, c, input))
  {
    hide PollTimer, AnnounceTimeout, IssueDelayReq, IssuePDelayReq;
    PollUndisturbed(p, ANNOUNCE_RECEIPT, input.alarms.0);
    var (p1, receipt) := PollTimer(p, ANNOUNCE_RECEIPT, input.alarms.0);
    TimeoutUndisturbed(p1, c);
    var p2 := if receipt then AnnounceTimeout(p1, c) else p1;
    PollUndisturbed(p2, OPERATOR_MESSAGES, input.alarms.1);
    var p3 := PollTimer(p2, OPERATOR_MESSAGES, input.alarms.1).0;
    PollUndisturbed(p3, DELAYREQ_INTERVAL, input.alarms.2);
    IssueUndisturbed(PollTimer(p3, DELAYREQ_INTERVAL, input.alarms.2).0, c, input, true);
    PollUndisturbed(p3, PDELAYREQ_INTERVAL, input.alarms.2);
    IssueUndisturbed(PollTimer(p3, PDELAYREQ_INTERVAL, input.alarms.2).0, c, input, true);
  }

  lemma MasterMessagesUndisturbed(p: Port, c: Config, input: Input)
    ensures Undisturbed(p, MasterMessages(p, c, input))
  {
    hide PollTimer, Issue;
    IssueUndisturbed(p, c, input, input.announceSent);
    var p0 := if p.announced then p else Issue(p, c, input.announceSent).(announced := true);
    PollUndisturbed(p0, SYNC_INTERVAL, input.alarms.0);
    var (p1, sync) := PollTimer(p0, SYNC_INTERVAL, input.alarms.0);
    IssueUndisturbed(p1, c, input, input.syncSent);
    var p2 := if sync then Issue(p1, c, input.syncSent) else p1;
    PollUndisturbed(p2, ANNOUNCE_INTERVAL, input.alarms.1);
    IssueUndisturbed(PollTimer(p2, ANNOUNCE_INTERVAL, input.alarms.1).0, c, input, input.announceSent);
  }

  lemma MasterTimersUndisturbed(p: Port, c: Config, input: Input)
    ensures Undisturbed(p, MasterTimers(p, c, input))
  {
    hide PollTimer, MasterMessages, IssuePDelayReq;
    MasterMessagesUndisturbed(p, c, input);
    var q := MasterMessages(p, c, input);
    PollUndisturbed(q, PDELAYREQ_INTERVAL, input.alarms.2);
    IssueUndisturbed(PollTimer(q, PDELAYREQ_INTERVAL, input.alarms.2).0, c, input, true);
  }

  lemma OtherMessageUndisturbed(p: Port, c: Config, m: Message, input: Input)
    requires InBounds(p.table) && !m.AnnounceMsg?
    ensures Undisturbed(p, HandleMessage(p, c, m, input))
  {
    hide ToState, RequestsStarted, Sum;
    ToStateKeeps(p, c, Faulty);
  }

  lemma HandleCurrent(p: Port, c: Config, input: Input)
    requires Tidy(p) && !p.recordUpdate && Regular(p.state) && Current(p)
    ensures InBounds(p.table) && Current(Handle(p, c, input))
  {
    hide ToState, HandleAnnounce, Current, Tidy, Undisturbed;
    TidyInBounds(p);
    StateChangeUndisturbed(p, c, Faulty);
    UndisturbedIsCurrent(p, ToState(p, c, Faulty));
    if input.received.Got? {
      var m := input.received.m;
      if m.AnnounceMsg? {
        AnnounceCurrent(p, c, m.record);
      } else {
        OtherMessageUndisturbed(p, c, m, input);
        UndisturbedIsCurrent(p, HandleMessage(p, c, m, input));
      }
    }
  }

  lemma InitUndisturbed(p: Port, c: Config, input: Input)
    ensures Undisturbed(p, DoInit(p, c, input))
  {
    hide ToState, Bmc.BecomeMaster, Bmc.InitDefault;
    ToStateKeeps(p, c, Faulty);
    var (d, o) := Bmc.InitDefault(p.o, p.d.identity);
    ToStateKeeps(p.(d := d, o := o, table := Reinitialized(p.table), bank := p.bank.(elapsed := 0),
                    log := p.log + [ServoInit], sets := Bmc.BecomeMaster(d, o, p.sets)), c, Listening);
  }

  lemma StepCurrent(p: Port, c: Config, input: Input)
    requires Timed(p, c) && Tidy(p) && Current(p)
    ensures InBounds(p.table) && Current(Step(p, c, input))
  {
    hide StateDecision, ToState, Handle, SlaveTimers, MasterTimers, DoInit, Current, Undisturbed, Tidy, Timed;
    TidyInBounds(p);
    if p.state == Initializing {
      InitUndisturbed(p, c, input);
      UndisturbedIsCurrent(p, DoInit(p, c, input));
    } else {
      DecisionClearsUpdate(p, c);
      DecisionUndisturbed(p, c);
      var q := StateDecision(p, c);
      UndisturbedIsCurrent(p, q);
      StateChangeUndisturbed(q, c, Initializing);
      UndisturbedIsCurrent(q, ToState(q, c, Initializing));
      TimedIsRegular(q, c);
      if Deciding(q.state) {
        if q.state == Master {
          MasterTimersUndisturbed(q, c, input);
          var r := MasterTimers(q, c, input);
          UndisturbedIsCurrent(q, r);
          MasterTimersTidy(q, c, input);
          MasterTimersTimed(q, c, input);
          TimedIsRegular(r, c);
          TimersKeepTable(q, c, input);
          HandleCurrent(r, c, input);
          StateChangeUndisturbed(Handle(r, c, input), c, Listening);
          UndisturbedIsCurrent(Handle(r, c, input), ToState(Handle(r, c, input), c, Listening));
        } else {
          HandleCurrent(q, c, input);
          SlaveTimersUndisturbed(Handle(q, c, input), c, input);
          UndisturbedIsCurrent(Handle(q, c, input), SlaveTimers(Handle(q, c, input), c, input));
        }
      }
    }
  }

  lemma TimedIsRegular(p: Port, c: Config)
    requires Timed(p, c)
    ensures Regular(p.state)
  {
    hide Profile;
  }

  lemma {:induction false} RunCurrent(p: Port, c: Config, inputs: seq<Input>)
    requires Timed(p, c) && Tidy(p) && InBounds(p.table) && CleanInits(p, c, inputs) && Current(p)
    ensures Current(PortRuns.Run(p, c, inputs))
    decreases |inputs|
  {
    if inputs != [] {
      hide Step, Timed, Tidy, Current;
      StepTimed(p, c, inputs[0]);
      StepTidy(p, c, inputs[0]);
      StepCurrent(p, c, inputs[0]);
      StepInBounds(p, c, inputs[0]);
      RunCurrent(Step(p, c, inputs[0]), c, inputs[1..]);
    }
  }

  lemma StoredIsHeard(heard: seq<Heard>, key: PortIdentity)
    requires LatestStored(heard, key).Some?
    ensures LatestHeard(heard, key).Some? && LatestHeard(heard, key).value.record.sender == key
    ensures LatestHeard(heard, key).value.stored ==> LatestStored(heard, key) == Some(LatestHeard(heard, key).value.record)
  {
    if heard[|heard| - 1].record.sender != key {
      StoredIsHeard(heard[..|heard| - 1], key);
    }
  }

  /**
   * In every run from power-up with clean initialisations each entry in use holds the latest Announce of its sender that
   * the table took; that is the latest the port accepted from it, unless the port heard that one in PASSIVE, as its
   * parent's.
   */
  lemma EntriesAreCurrent(p: Port, c: Config, inputs: seq<Input>, i: nat)
    requires PoweredUp(p) && CleanInits(p, c, inputs) && i < PortRuns.Run(p, c, inputs).table.number
    ensures var q := PortRuns.Run(p, c, inputs);
      && q.table.number <= |q.table.entries|
      && var e, h := q.table.entries[i], LatestHeard(q.heard, q.table.entries[i].key);
         && LatestStored(q.heard, e.key) == Some(e.record) && h.Some? && h.value.record.sender == e.key
         && (h.value.stored ==> e.record == h.value.record)
  {
    hide PortRuns.Run, Timed, Tidy, CleanInits;
    PoweredUpIsSound(p, c);
    EmptyIsCurrent(p);
    RunCurrent(p, c, inputs);
    var q := PortRuns.Run(p, c, inputs);
    StoredIsHeard(q.heard, q.table.entries[i].key);
  }
}
