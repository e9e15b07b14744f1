/** Runs of the port from power-up, and what all of them keep. */
module PortRuns {
  import opened Bits
  import opened TimeArith
  import opened DataSets
  import opened Timers
  import opened ForeignMasters
  import opened Port
  import opened PortInvariants
  import opened PortPairing
  import Bmc
  import Messages
  import Servo

  // ---- The table never leaves its bounds

  lemma HandleInBounds(p: Port, c: Config, input: Input)
    requires InBounds(p.table)
    ensures InBounds(Handle(p, c, input).table)
  {
    hide Started, Bmc.FollowRecord, ToState, Sum;
    ToStateKeeps(p, c, Faulty);
  }

  lemma IssueKeepTable(p: Port, c: Config, input: Input)
    ensures IssueDelayReq(p, c, input).table == p.table
  {
    hide ToState, Sum, Started;
    ToStateKeeps(p, c, Faulty);
  }

  lemma PollKeepsTable(p: Port, timer: nat, alarms: nat)
    ensures PollTimer(p, timer, alarms).0.table == p.table
  {
    hide Polled;
  }

  lemma TimeoutTable(p: Port, c: Config)
    ensures AnnounceTimeout(p, c).table == Emptied(p.table) && AnnounceTimeout(p, c).recordUpdate == p.recordUpdate
    ensures AnnounceTimeout(p, c).state == if SlaveOnlyClock(p) then Listening else Master
  {
    hide ToState, Bmc.BecomeMaster;
    var q := p.(table := Emptied(p.table));
    ToStateKeeps(q, c, Listening);
    ToStateKeeps(q.(sets := Bmc.BecomeMaster(p.d, p.o, p.sets)), c, Master);
  }

  lemma SlaveTimersTable(p: Port, c: Config, input: Input)
    ensures SlaveTimers(p, c, input).table == p.table || SlaveTimers(p, c, input).table == Emptied(p.table)
  {
    hide PollTimer, AnnounceTimeout, IssueDelayReq, IssuePDelayReq, Emptied;
    PollKeepsTable(p, ANNOUNCE_RECEIPT, input.alarms.0);
    var (p1, receipt) := PollTimer(p, ANNOUNCE_RECEIPT, input.alarms.0);
    TimeoutTable(p1, c);
    var p2 := if receipt then AnnounceTimeout(p1, c) else p1;
    PollKeepsTable(p2, OPERATOR_MESSAGES, input.alarms.1);
    var p3 := PollTimer(p2, OPERATOR_MESSAGES, input.alarms.1).0;
    PollKeepsTable(p3, DELAYREQ_INTERVAL, input.alarms.2);
    IssueKeepTable(PollTimer(p3, DELAYREQ_INTERVAL, input.alarms.2).0, c, input);
    PollKeepsTable(p3, PDELAYREQ_INTERVAL, input.alarms.2);
    IssuePDelayKeepsTable(PollTimer(p3, PDELAYREQ_INTERVAL, input.alarms.2).0, c, input);
  }

  lemma StepInBounds(p: Port, c: Config, input: Input)
    requires InBounds(p.table)
    ensures InBounds(Step(p, c, input).table)
  {
    hide StateDecision, ToState, Handle, SlaveTimers, MasterTimers, Bmc.InitDefault, Bmc.BecomeMaster;
    if p.state == Initializing {
      ToStateKeeps(p, c, Faulty);
      var (d, o) := Bmc.InitDefault(p.o, p.d.identity);
      ToStateKeeps(p.(d := d, o := o, table := Reinitialized(p.table), bank := p.bank.(elapsed := 0),
                      log := p.log + [ServoInit], sets := Bmc.BecomeMaster(d, o, p.sets)), c, Listening);
    } else {
      DecisionInBounds(p, c);
      var q := StateDecision(p, c);
      ToStateKeeps(q, c, Initializing);
      HandleInBounds(q, c, input);
      SlaveTimersTable(Handle(q, c, input), c, input);
      if q.state == Master {
        TimersKeepTable(q, c, input);
        HandleInBounds(MasterTimers(q, c, input), c, input);
        ToStateKeeps(Handle(MasterTimers(q, c, input), c, input), c, Listening);
      }
    }
  }

  // ---- Runs

  function Run(p: Port, c: Config, inputs: seq<Input>): Port
    requires InBounds(p.table)
    decreases |inputs|
  {
    if inputs == [] then p
    else StepInBounds(p, c, inputs[0]); Run(Step(p, c, inputs[0]), c, inputs[1..])
  }

  /** Every initialisation of the run finds the insert slot of the foreign-master ring at its start. */
  predicate CleanInits(p: Port, c: Config, inputs: seq<Input>)
    requires InBounds(p.table)
    decreases |inputs|
  {
    inputs == []
    || ((p.state == Initializing ==> p.table.slot == 0)
        && (StepInBounds(p, c, inputs[0]); CleanInits(Step(p, c, inputs[0]), c, inputs[1..])))
  }

  lemma StepTimed(p: Port, c: Config, input: Input)
    requires Timed(p, c) && InBounds(p.table)
    ensures Timed(Step(p, c, input), c)
  {
    hide Timed, DoInit, DoState;
    if p.state == Initializing {
      DoInitTimed(p, c, input);
    } else {
      DoStateTimed(p, c, input);
    }
  }

  lemma StepTidy(p: Port, c: Config, input: Input)
    requires Timed(p, c) && Tidy(p) && (p.state == Initializing ==> p.table.slot == 0)
    ensures InBounds(p.table) && Tidy(Step(p, c, input))
  {
    hide Timed, Tidy, DoInit, DoState;
    TidyInBounds(p);
    if p.state == Initializing {
      DoInitTidy(p, c, input);
    } else {
      DoStateTidy(p, c, input);
    }
  }

  lemma TidyInBounds(p: Port)
    requires Tidy(p)
    ensures InBounds(p.table)
  {
    hide HoldsParent;
  }

  /**
   * In every run timers follow states, a slave-only clock is never MASTER or PASSIVE, and messages are paired as
   * WellPaired says.
   */
  lemma {:induction false} RunKeepsTimersAndPairs(p: Port, c: Config, inputs: seq<Input>)
    requires Timed(p, c) && Paired(p) && InBounds(p.table)
    ensures Timed(Run(p, c, inputs), c) && Paired(Run(p, c, inputs))
    decreases |inputs|
  {
    if inputs != [] {
      hide Step, Timed, Paired;
      StepTimed(p, c, inputs[0]);
      StepPaired(p, c, inputs[0]);
      StepInBounds(p, c, inputs[0]);
      RunKeepsTimersAndPairs(Step(p, c, inputs[0]), c, inputs[1..]);
    }
  }

  /** In every run with clean initialisations the foreign-master table stays tidy. */
  lemma {:induction false} RunKeepsTable(p: Port, c: Config, inputs: seq<Input>)
    requires Timed(p, c) && Tidy(p) && InBounds(p.table) && CleanInits(p, c, inputs)
    ensures Tidy(Run(p, c, inputs))
    decreases |inputs|
  {
    if inputs != [] {
      hide Step, Timed, Tidy;
      StepTimed(p, c, inputs[0]);
      StepTidy(p, c, inputs[0]);
      StepInBounds(p, c, inputs[0]);
      RunKeepsTable(Step(p, c, inputs[0]), c, inputs[1..]);
    }
  }

  /** The port as it enters the main loop. */
  predicate PoweredUp(p: Port) {
    && p.state == Initializing && !p.recordUpdate && p.log == [] && p.heard == [] && !p.pair.waitingForFollow
    && !p.pair.waitingForDelayResp && p.pair.sentDelayReqSequenceId == p.pair.sentPDelayReqSequenceId == 0
    && p.table.number == p.table.best == p.table.slot == 0 && p.table.entries != []
    && |p.bank.timers| == TIMER_ARRAY_SIZE
    && forall i :: 0 <= i < TIMER_ARRAY_SIZE ==> p.bank.timers[i] == IntervalTimer(0, 0, false)
  }

  lemma PoweredUpIsSound(p: Port, c: Config)
    requires PoweredUp(p)
    ensures InBounds(p.table) && Timed(p, c) && Tidy(p) && Paired(p)
  {}

  /** A run from p leads to q. */
  ghost predicate Reachable(p: Port, c: Config, q: Port)
    requires InBounds(p.table)
  {
    exists inputs: seq<Input> :: Run(p, c, inputs) == q
  }

  lemma {:induction false} RunAppend(p: Port, c: Config, inputs: seq<Input>, i: Input)
    requires InBounds(p.table)
    ensures InBounds(Run(p, c, inputs).table) && Run(p, c, inputs + [i]) == Step(Run(p, c, inputs), c, i)
    decreases |inputs|
  {
    hide Step;
    if inputs == [] {
      StepInBounds(p, c, i);
      assert [] + [i] == [i];
      assert [i][1..] == [];
    } else {
      StepInBounds(p, c, inputs[0]);
      assert (inputs + [i])[1..] == inputs[1..] + [i];
      RunAppend(Step(p, c, inputs[0]), c, inputs[1..], i);
    }
  }

  lemma ReachableFromStart(p: Port, c: Config)
    requires InBounds(p.table)
    ensures Reachable(p, c, p)
  {
    assert Run(p, c, []) == p;
  }

  lemma ReachableStep(p: Port, c: Config, q: Port, i: Input)
    requires InBounds(p.table) && Reachable(p, c, q)
    ensures InBounds(q.table) && Reachable(p, c, Step(q, c, i))
  {
    hide Run, Step;
    var inputs: seq<Input> :| Run(p, c, inputs) == q;
    RunAppend(p, c, inputs, i);
  }

  lemma ReachableTimed(p: Port, c: Config, q: Port)
    requires PoweredUp(p) && Reachable(p, c, q)
    ensures Timed(q, c)
  {
    hide Run, Timed, Paired;
    var inputs: seq<Input> :| Run(p, c, inputs) == q;
    PoweredUpIsSound(p, c);
    RunKeepsTimersAndPairs(p, c, inputs);
  }

  /** So from power-up: the timers that run tell the state, and a clock configured slave-only never leads. */
  lemma TimersTellState(p: Port, c: Config, inputs: seq<Input>)
    requires PoweredUp(p)
    ensures InBounds(p.table)
    ensures var q := Run(p, c, inputs);
      && (Armed(q.bank, SYNC_INTERVAL) <==> q.state == Master)
      && (Armed(q.bank, ANNOUNCE_INTERVAL) <==> q.state == Master)
      && (Armed(q.bank, ANNOUNCE_RECEIPT) <==> q.state == Listening || q.state == Slave || q.state == Passive)
      && (Armed(q.bank, PDELAYREQ_INTERVAL) <==>
            q.state == Master || q.state == Passive
            || (q.state == Slave && c.mechanism == Servo.P2P && !q.pair.waitingForFirstSync))
      && (q.o.slaveOnly ==> q.state != Master && q.state != Passive)
  {
    hide Run, Paired, Armed, Profile;
    PoweredUpIsSound(p, c);
    RunKeepsTimersAndPairs(p, c, inputs);
    var q := Run(p, c, inputs);
    ProfileArms(q.bank, c, q.state, Probing(c, q.state, q.pair.waitingForFirstSync));
  }

  /** And each of them runs with its configured interval, at least one tick, and has at most that to go. */
  lemma TimersRunAtTheirIntervals(p: Port, c: Config, inputs: seq<Input>)
    requires PoweredUp(p)
    ensures var q := Run(p, c, inputs);
      && ValidBank(q.bank)
      && (q.state == Master ==>
            && q.bank.timers[SYNC_INTERVAL].interval == AtLeastOne(c.syncTicks)
            && q.bank.timers[ANNOUNCE_INTERVAL].interval == AtLeastOne(c.announceTicks))
      && (q.state == Listening ==> q.bank.timers[ANNOUNCE_RECEIPT].interval == AtLeastOne(c.listeningTicks))
      && (q.state == Slave || q.state == Passive ==> q.bank.timers[ANNOUNCE_RECEIPT].interval == AtLeastOne(c.receiptTicks))
      && (Armed(q.bank, PDELAYREQ_INTERVAL) ==> q.bank.timers[PDELAYREQ_INTERVAL].interval == AtLeastOne(c.pdelayTicks))
  {
    hide Run, Paired;
    PoweredUpIsSound(p, c);
    RunKeepsTimersAndPairs(p, c, inputs);
  }

  // ---- What a master announces

  /** The clock shows its own UTC offset, as one that is not valid. */
  predicate OwnUtc(o: Bmc.Options, s: Sets) {
    s.timeProperties.utcOffset == o.utcOffset && !s.timeProperties.flags.utcValid
  }

  /** A master holds the data sets of its own grandmaster; it and a passive port take the UTC offset of no one. */
  predicate LeadsItself(p: Port) {
    && (p.state == Master ==> Bmc.OwnSets(p.d, p.sets))
    && (p.state == Master || p.state == Passive ==> OwnUtc(p.o, p.sets))
  }

  lemma EnterShowsUtc(p: Port, c: Config, s: PortState)
    requires s != PreMaster && (s == Master ==> OwnUtc(p.o, p.sets))
    ensures s == Master || s == Passive ==> OwnUtc(ToState(p, c, s).o, ToState(p, c, s).sets)
  {
    hide Started, Stopped;
  }

  lemma ToStateLeads(p: Port, c: Config, s: PortState)
    requires s != PreMaster && (s == Master ==> Bmc.OwnSets(p.d, p.sets) && OwnUtc(p.o, p.sets))
    ensures LeadsItself(ToState(p, c, s))
  {
    hide ToState;
    ToStateKeeps(p, c, s);
    EnterShowsUtc(p, c, s);
  }

  lemma OwnSetsOfMaster(d: DefaultDS, o: Bmc.Options, s: Sets)
    ensures Bmc.OwnSets(d, Bmc.BecomeMaster(d, o, s)) && OwnUtc(o, Bmc.BecomeMaster(d, o, s))
  {}

  lemma ExecLeads(p: Port)
    requires InBounds(p.table)
    ensures var (decided, sets, _) :=
        Bmc.Exec(p.state, p.d, p.o, RecordsOf(p.table), p.table.number, p.table.best, RecordsOf(p.table)[0], p.sets);
      && decided != PreMaster && (decided == Master ==> Bmc.OwnSets(p.d, sets) && OwnUtc(p.o, sets))
      && (decided == p.state == Passive ==> OwnUtc(p.o, sets))
  {
    hide Bmc.Compare, Bmc.OwnRecord, Bmc.Best;
  }

  lemma DecisionLeads(p: Port, c: Config)
    requires InBounds(p.table) && LeadsItself(p)
    ensures LeadsItself(StateDecision(p, c))
  {
    hide ToState, Bmc.Exec, RecordsOf, Bmc.OwnSets;
    ExecLeads(p);
    if p.recordUpdate && Deciding(p.state) {
      var (decided, sets, best) :=
        Bmc.Exec(p.state, p.d, p.o, RecordsOf(p.table), p.table.number, p.table.best, RecordsOf(p.table)[0], p.sets);
      ToStateLeads(p.(recordUpdate := false, sets := sets, table := p.table.(best := best)), c, decided);
    }
  }

  lemma AnnounceLeads(p: Port, c: Config, r: Record)
    requires InBounds(p.table) && LeadsItself(p)
    ensures LeadsItself(HandleAnnounce(p, c, r))
  {
    hide Started, Added, Refreshed, Bmc.OwnSets;
  }

  lemma OtherMessagesKeepSets(p: Port, c: Config, m: Message, input: Input)
    requires InBounds(p.table) && !m.AnnounceMsg?
    ensures var q := HandleMessage(p, c, m, input);
      q == ToState(p, c, Faulty) || (q.state == p.state && q.d == p.d && q.o == p.o && q.sets == p.sets)
  {
    hide ToState, RequestsStarted, Sum;
  }

  lemma HandleLeads(p: Port, c: Config, input: Input)
    requires InBounds(p.table) && LeadsItself(p)
    ensures LeadsItself(Handle(p, c, input))
  {
    hide ToState, HandleMessage, HandleAnnounce, Bmc.OwnSets;
    ToStateLeads(p, c, Faulty);
    if input.received.Got? {
      var m := input.received.m;
      if m.AnnounceMsg? {
        AnnounceLeads(p, c, m.record);
        AnnounceIsHandled(p, c, m.record, input);
      } else {
        OtherMessagesKeepSets(p, c, m, input);
      }
    }
  }

  lemma AnnounceIsHandled(p: Port, c: Config, r: Record, input: Input)
    requires InBounds(p.table)
    ensures HandleMessage(p, c, AnnounceMsg(r), input) == HandleAnnounce(p, c, r)
  {
    hide HandleAnnounce;
  }

  lemma IssueLeads(p: Port, c: Config, input: Input, sent: bool)
    requires LeadsItself(p)
    ensures LeadsItself(Issue(p, c, sent)) && LeadsItself(IssueDelayReq(p, c, input)) && LeadsItself(IssuePDelayReq(p, c, input))
  {
    hide ToState, Started, Sum, Bmc.OwnSets;
    ToStateLeads(p, c, Faulty);
  }

  lemma PollLeads(p: Port, timer: nat, alarms: nat)
    requires LeadsItself(p)
    ensures LeadsItself(PollTimer(p, timer, alarms).0)
  {
    hide Polled, Bmc.OwnSets;
  }

  lemma TimeoutLeads(p: Port, c: Config)
    ensures LeadsItself(AnnounceTimeout(p, c))
  {
    hide ToState, Bmc.BecomeMaster, Bmc.OwnSets;
    OwnSetsOfMaster(p.d, p.o, p.sets);
    var q := p.(table := Emptied(p.table));
    ToStateLeads(q, c, Listening);
    ToStateLeads(q.(sets := Bmc.BecomeMaster(p.d, p.o, p.sets)), c, Master);
  }

  lemma SlaveTimersLead(p: Port, c: Config, input: Input)
    requires LeadsItself(p)
    ensures LeadsItself(SlaveTimers(p, c, input))
  {
    hide LeadsItself, PollTimer, AnnounceTimeout, IssueDelayReq, IssuePDelayReq;
    PollLeads(p, ANNOUNCE_RECEIPT, input.alarms.0);
    var (p1, receipt) := PollTimer(p, ANNOUNCE_RECEIPT, input.alarms.0);
    TimeoutLeads(p1, c);
    var p2 := if receipt then AnnounceTimeout(p1, c) else p1;
    PollLeads(p2, OPERATOR_MESSAGES, input.alarms.1);
    var p3 := PollTimer(p2, OPERATOR_MESSAGES, input.alarms.1).0;
    PollLeads(p3, DELAYREQ_INTERVAL, input.alarms.2);
    IssueLeads(PollTimer(p3, DELAYREQ_INTERVAL, input.alarms.2).0, c, input, true);
    PollLeads(p3, PDELAYREQ_INTERVAL, input.alarms.2);
    IssueLeads(PollTimer(p3, PDELAYREQ_INTERVAL, input.alarms.2).0, c, input, true);
  }

  lemma IssueKeepsSets(p: Port, c: Config, input: Input, sent: bool)
    ensures var q := Issue(p, c, sent); q.d == p.d && q.o == p.o && q.sets == p.sets
    ensures var q := IssuePDelayReq(p, c, input); q.d == p.d && q.o == p.o && q.sets == p.sets
  {
    hide Stopped, Sum;
  }

  lemma PollKeepsSets(p: Port, timer: nat, alarms: nat)
    ensures var q := PollTimer(p, timer, alarms).0; q.d == p.d && q.o == p.o && q.sets == p.sets && q.state == p.state
  {
    hide Polled;
  }

  /** What a master packs in a pass comes from the data sets it enters the pass with, even if a send fails. */
  lemma MasterMessagesKeepSets(p: Port, c: Config, input: Input)
    ensures var q := MasterMessages(p, c, input); q.d == p.d && q.o == p.o && q.sets == p.sets
  {
    hide PollTimer, Issue;
    IssueKeepsSets(p, c, input, input.announceSent);
    var p0 := if p.announced then p else Issue(p, c, input.announceSent).(announced := true);
    PollKeepsSets(p0, SYNC_INTERVAL, input.alarms.0);
    var (p1, sync) := PollTimer(p0, SYNC_INTERVAL, input.alarms.0);
    IssueKeepsSets(p1, c, input, input.syncSent);
    var p2 := if sync then Issue(p1, c, input.syncSent) else p1;
    PollKeepsSets(p2, ANNOUNCE_INTERVAL, input.alarms.1);
    IssueKeepsSets(PollTimer(p2, ANNOUNCE_INTERVAL, input.alarms.1).0, c, input, input.announceSent);
  }

  lemma MasterTimersLead(p: Port, c: Config, input: Input)
    requires Bmc.OwnSets(p.d, p.sets) && OwnUtc(p.o, p.sets)
    ensures LeadsItself(MasterTimers(p, c, input))
  {
    hide MasterMessages, PollTimer, IssuePDelayReq, Bmc.OwnSets;
    MasterMessagesKeepSets(p, c, input);
    var q := MasterMessages(p, c, input);
    PollKeepsSets(q, PDELAYREQ_INTERVAL, input.alarms.2);
    IssueKeepsSets(PollTimer(q, PDELAYREQ_INTERVAL, input.alarms.2).0, c, input, true);
  }

  lemma StepLeads(p: Port, c: Config, input: Input)
    requires InBounds(p.table) && LeadsItself(p)
    ensures LeadsItself(Step(p, c, input))
  {
    hide StateDecision, ToState, Handle, SlaveTimers, MasterTimers, Bmc.InitDefault, Bmc.BecomeMaster, Bmc.OwnSets;
    if p.state == Initializing {
      ToStateLeads(p, c, Faulty);
      var (d, o) := Bmc.InitDefault(p.o, p.d.identity);
      ToStateLeads(p.(d := d, o := o, table := Reinitialized(p.table), bank := p.bank.(elapsed := 0),
                      log := p.log + [ServoInit], sets := Bmc.BecomeMaster(d, o, p.sets)), c, Listening);
    } else {
      DecisionLeads(p, c);
      DecisionInBounds(p, c);
      var q := StateDecision(p, c);
      ToStateLeads(q, c, Initializing);
      HandleLeads(q, c, input);
      SlaveTimersLead(Handle(q, c, input), c, input);
      if q.state == Master {
        TimersKeepTable(q, c, input);
        MasterTimersLead(q, c, input);
        HandleLeads(MasterTimers(q, c, input), c, input);
        ToStateLeads(Handle(MasterTimers(q, c, input), c, input), c, Listening);
      }
    }
  }

  lemma {:induction false} RunLeads(p: Port, c: Config, inputs: seq<Input>)
    requires InBounds(p.table) && LeadsItself(p)
    ensures LeadsItself(Run(p, c, inputs)) && InBounds(Run(p, c, inputs).table)
    decreases |inputs|
  {
    if inputs != [] {
      hide Step, LeadsItself;
      StepLeads(p, c, inputs[0]);
      StepInBounds(p, c, inputs[0]);
      RunLeads(Step(p, c, inputs[0]), c, inputs[1..]);
    }
  }

  /**
   * In every run from power-up, a port that is master, before or after its decision, holds its own data sets; so what
   * it packs into an Announce is the record that its own comparison uses for itself.
   */
  lemma MasterAnnouncesItself(p: Port, c: Config, inputs: seq<Input>, port: UInt16, flags: Flags)
    requires PoweredUp(p)
    ensures var q := Run(p, c, inputs);
      && InBounds(q.table)
      && (q.state == Master ==>
            Bmc.OwnSets(q.d, q.sets)
            && Bmc.Announces(q.d, Record(PortIdentity(q.d.identity, port), flags, Messages.AnnounceOf(q.d, q.sets))))
      && (StateDecision(q, c).state == Master ==> Bmc.OwnSets(StateDecision(q, c).d, StateDecision(q, c).sets))
  {
    hide Run, StateDecision, Bmc.Announces, Messages.AnnounceOf;
    RunLeads(p, c, inputs);
    var q := Run(p, c, inputs);
    DecisionLeads(q, c);
    Messages.AnnouncesItselfIff(q.d, q.sets, PortIdentity(q.d.identity, port), flags, q.sets.timeProperties.utcOffset);
    SameOffset(q.d, q.sets);
  }

  /** In every run from power-up, a master or passive port shows its own UTC offset, before and after its decision. */
  lemma PassiveShowsOwnUtc(p: Port, c: Config, inputs: seq<Input>)
    requires PoweredUp(p)
    ensures var q := Run(p, c, inputs);
      && InBounds(q.table)
      && (q.state == Master || q.state == Passive ==> OwnUtc(q.o, q.sets))
      && (StateDecision(q, c).state == Passive ==> OwnUtc(StateDecision(q, c).o, StateDecision(q, c).sets))
  {
    hide Run, StateDecision, OwnUtc;
    RunLeads(p, c, inputs);
    DecisionLeads(Run(p, c, inputs), c);
  }

  /** After a run from power-up the port decides to be master, or stays it. */
  predicate RunsToMaster(start: Port, c: Config, inputs: seq<Input>, q: Port) {
    PoweredUp(start) && InBounds(Run(start, c, inputs).table) && q == StateDecision(Run(start, c, inputs), c)
    && q.state == Master
  }

  lemma RunningMasterOwnsSets(start: Port, c: Config, inputs: seq<Input>, q: Port)
    requires RunsToMaster(start, c, inputs, q)
    ensures Bmc.OwnSets(q.d, q.sets)
  {
    hide Run, StateDecision, Bmc.Announces, Bmc.OwnSets, Messages.AnnounceOf;
    MasterAnnouncesItself(start, c, inputs, 0, Messages.FlagsOf(0));
  }

  lemma SameOffset(d: DefaultDS, s: Sets)
    ensures Messages.AnnounceOf(d, s).(utcOffset := s.timeProperties.utcOffset) == Messages.AnnounceOf(d, s)
  {}

  /** A port's decision is the election's. */
  lemma PortElects(p: Port, c: Config, ds: seq<DefaultDS>, l: int, i: int)
    requires InBounds(p.table) && p.recordUpdate && Deciding(p.state)
    requires Bmc.Electorate(ds, l, i, p.d, p.o, RecordsOf(p.table)[..p.table.number])
    ensures 0 <= l < |ds| && Bmc.Elected(ds, l, i, StateDecision(p, c).state, StateDecision(p, c).sets)
  {
    hide ToState, Bmc.Exec, RecordsOf, Bmc.HearsOthers, Bmc.DistinctIdentities, Bmc.OwnKey;
    var (decided, sets, best) :=
      Bmc.Exec(p.state, p.d, p.o, RecordsOf(p.table), p.table.number, p.table.best, RecordsOf(p.table)[0], p.sets);
    Bmc.Election(ds, l, i, p.state, p.o, RecordsOf(p.table), p.table.number, p.table.best, RecordsOf(p.table)[0], p.sets);
    ToStateKeeps(p.(recordUpdate := false, sets := sets, table := p.table.(best := best)), c, decided);
  }

  // ---- What the measurements of a run mean

  /** What transparent clocks added to a Sync and its Follow_Up. */
  function Carried(sync: Action, update: Action): int
    requires sync.SyncHeard? && update.OffsetUpdate?
  {
    Nanos(sync.correction) + if update.followUp.Some? then Nanos(update.followUp.value) else 0
  }

  lemma CompletedMeasures(sync: Action, a: Action, delay: int, ahead: int)
    requires sync.SyncHeard? && a.OffsetUpdate? && Completes(Some(sync), a)
    requires Nanos(sync.received) == Nanos(a.send) + delay + Carried(sync, a) + ahead
    ensures Servo.DelayMS(a.send, a.received, a.correction) == FromNanos(delay + ahead)
  {
    hide Sum, Nanos, FromNanos, Servo.DelayMS;
    if a.followUp.Some? {
      SumIsExact(a.followUp.value, sync.correction);
      ValueOfFromNanos(Nanos(a.followUp.value) + Nanos(sync.correction));
    }
    Servo.SyncRecovery(a.send, a.received, a.correction, delay, ahead);
  }

  /**
   * Every offset update of every run from power-up belongs to a Sync of its own. If that Sync took delay to arrive,
   * transparent clocks apart, at a clock that is ahead by some offset, then delay plus offset is what the servo sees.
   */
  lemma EveryOffsetMeasures(p: Port, c: Config, inputs: seq<Input>, i: nat, delay: int, ahead: int) returns (s: nat)
    requires PoweredUp(p) && i < |Run(p, c, inputs).log| && Run(p, c, inputs).log[i].OffsetUpdate?
    ensures var log := Run(p, c, inputs).log;
      && s < i && log[s].SyncHeard? && log[s].sequence == log[i].sequence && (log[s].twoStep <==> log[i].followUp.Some?)
      && (forall k :: s < k < i ==> !ClosesSync(log[k]))
      && (Nanos(log[s].received) == Nanos(log[i].send) + delay + Carried(log[s], log[i]) + ahead ==>
            Servo.DelayMS(log[i].send, log[i].received, log[i].correction) == FromNanos(delay + ahead))
  {
    hide Run, Timed, WellPaired, Nanos, FromNanos, Sum, Servo.DelayMS, Carried;
    PoweredUpIsSound(p, c);
    RunKeepsTimersAndPairs(p, c, inputs);
    var log := Run(p, c, inputs).log;
    s := OwnSync(log, i);
    if Nanos(log[s].received) == Nanos(log[i].send) + delay + Carried(log[s], log[i]) + ahead {
      CompletedMeasures(log[s], log[i], delay, ahead);
    }
  }

  /**
   * Every delay update of every run from power-up uses the send time of a request of its own. If the latest request was
   * stamped, it is the one answered, and with the Sync delay it yields half the round trip, the offset taken out.
   */
  lemma EveryDelayMeasures(p: Port, c: Config, inputs: seq<Input>, i: nat, delayMS: Time, ms: int, sm: int, ahead: int)
    returns (s: nat)
    requires PoweredUp(p) && i < |Run(p, c, inputs).log| && Run(p, c, inputs).log[i].DelayUpdate?
    ensures var log := Run(p, c, inputs).log;
      && s < i && log[s].DelayRequested? && LastRequest(log[..i]).Some?
      && (forall k :: s < k < i ==> !ClosesRequest(log[k]))
      && (LastRequest(log[..i]) == Some(log[s]) <==> LastRequest(log[..i]).value.DelayRequested?)
      && (LastRequest(log[..i]) == Some(log[s]) ==> log[s].sequence == log[i].sequence)
      && (Nanos(delayMS) == ms + ahead && Nanos(log[i].received) == Nanos(log[s].sent) + sm + Nanos(log[i].correction) - ahead ==>
            Servo.RawMeanDelay(Difference(log[i].received, log[i].send), delayMS, log[i].correction)
            == FromNanos(Quot(ms + sm, 2)))
  {
    hide Run, Timed, WellPaired, Nanos, FromNanos, Difference, Servo.RawMeanDelay, LastRequest, OpenRequest, Quot;
    PoweredUpIsSound(p, c);
    RunKeepsTimersAndPairs(p, c, inputs);
    var log := Run(p, c, inputs).log;
    s := OwnRequest(log, i);
    AnswerFitsUnlessBlind(log[..i]);
    if Nanos(delayMS) == ms + ahead && Nanos(log[i].received) == Nanos(log[s].sent) + sm + Nanos(log[i].correction) - ahead {
      Servo.DelayReqRecovery(delayMS, log[s].sent, log[i].received, log[i].correction, ms, sm, ahead);
    }
  }

  // ---- Whole exchanges

  /** A Sync and its Follow_Up from the parent: one offset update, with both corrections. */
  lemma TwoStepSync(p: Port, c: Config, s: Header, stamp: Time, f: Header, origin: Time)
    requires p.state == Slave && FromParent(p, s.sender) && f.sender == s.sender != OwnPort(p, c)
    requires s.twoStep && f.sequence == s.sequence
    ensures HandleFollowUp(HandleSync(p, c, s, ZERO, stamp), c, f, origin).log ==
      p.log + [SyncHeard(s.sender, s.sequence, stamp, s.correction, true)]
            + [OffsetUpdate(s.sender, s.sequence, origin, stamp, Sum(f.correction, s.correction), Some(f.correction))]
  {
    hide Started, Sum;
  }

  /** Whatever transparent clocks added to either message, the servo then sees path delay plus offset. */
  lemma TwoStepSyncRecovers(p: Port, c: Config, s: Header, stamp: Time, f: Header, origin: Time,
                            delay: int, ahead: int)
    requires p.state == Slave && FromParent(p, s.sender) && f.sender == s.sender != OwnPort(p, c)
    requires s.twoStep && f.sequence == s.sequence
    requires Nanos(stamp) == Nanos(origin) + delay + Nanos(s.correction) + Nanos(f.correction) + ahead
    ensures var log := HandleFollowUp(HandleSync(p, c, s, ZERO, stamp), c, f, origin).log;
      log != [] && Last(log).OffsetUpdate?
      && Servo.DelayMS(Last(log).send, Last(log).received, Last(log).correction) == FromNanos(delay + ahead)
  {
    hide Sum, Nanos, FromNanos, Servo.DelayMS, HandleSync, HandleFollowUp;
    TwoStepSync(p, c, s, stamp, f, origin);
    SumIsExact(f.correction, s.correction);
    ValueOfFromNanos(Nanos(f.correction) + Nanos(s.correction));
    Servo.SyncRecovery(origin, stamp, Sum(f.correction, s.correction), delay, ahead);
  }

  /** A timestamped Delay_Req and the parent's answer: one delay update with the corrected send time. */
  lemma DelayExchange(p: Port, c: Config, input: Input, h: Header, receipt: Time)
    requires p.state == Slave && FromParent(p, h.sender) && input.delayReqSent && input.txStamp.Some?
    requires h.sequence == p.pair.sentDelayReqSequenceId < 0xFFFF
    ensures var sent := Sum(input.txStamp.value, c.outboundLatency);
      var q := HandleDelayResp(IssueDelayReq(p, c, input), c, h, OwnPort(p, c), receipt);
      && q.log == p.log + [DelayRequested(h.sequence, sent)] + [DelayUpdate(h.sequence, sent, receipt, h.correction)]
      && q.pair.logMinDelayReqInterval == if c.ignoreMasterInterval then c.subsequentDelayReq else h.logInterval
  {
    hide Started, Sum;
  }

  /** A two-step peer exchange: one update with all four times in their places and both corrections. */
  lemma PeerExchange(p: Port, c: Config, input: Input, r: Header, receipt: Time, stamp: Time, f: Header, origin: Time)
    requires (p.state == Slave || p.state == Master) && input.pdelayReqSent && input.txStamp.Some?
    requires r.sequence == f.sequence == p.pair.sentPDelayReqSequenceId < 0xFFFF && r.twoStep
    ensures var q := HandlePDelayResp(IssuePDelayReq(p, c, input), c, r, OwnPort(p, c), receipt, stamp);
      HandlePDelayRespFollowUp(q, f, origin).log
      == p.log + [PeerDelayUpdate(Servo.PeerTimes(Sum(input.txStamp.value, c.outboundLatency), receipt, origin, stamp),
                                  Sum(f.correction, r.correction), true)]
  {
    hide Sum;
  }
}
