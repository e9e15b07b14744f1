/** The best master clock algorithm of esl/sw/bmc.cpp. */
module Bmc {
  import opened Bits
  import opened TimeArith
  import opened DataSets
  import opened ForeignMasters

  const SLAVE_ONLY_CLOCK_CLASS := 255
  const INTERNAL_OSCILLATOR := 0xA0

  // ---- Octet strings

  /** memcmp on strings of one length, reduced to its sign. */
  function Memcmp(a: seq<Octet>, b: seq<Octet>): (r: int)
    requires |a| == |b|
    ensures -1 <= r <= 1
  {
    if a == [] then 0
    else if a[0] < b[0] then -1
    else if a[0] > b[0] then 1
    else Memcmp(a[1..], b[1..])
  }

  lemma {:induction false} MemcmpZeroIff(a: seq<Octet>, b: seq<Octet>)
    requires |a| == |b|
    ensures Memcmp(a, b) == 0 <==> a == b
  {
    if a != [] {
      MemcmpZeroIff(a[1..], b[1..]);
      assert a == [a[0]] + a[1..] && b == [b[0]] + b[1..];
    }
  }

  lemma {:induction false} MemcmpAntisymmetric(a: seq<Octet>, b: seq<Octet>)
    requires |a| == |b|
    ensures Memcmp(a, b) == -Memcmp(b, a)
  {
    if a != [] {
      MemcmpAntisymmetric(a[1..], b[1..]);
    }
  }

  lemma {:induction false} MemcmpTransitive(a: seq<Octet>, b: seq<Octet>, c: seq<Octet>)
    requires |a| == |b| == |c|
    ensures Memcmp(a, b) <= 0 && Memcmp(b, c) <= 0 ==>
      Memcmp(a, c) <= 0 && (Memcmp(a, c) == 0 ==> Memcmp(a, b) == 0 && Memcmp(b, c) == 0)
  {
    if a != [] {
      MemcmpTransitive(a[1..], b[1..], c[1..]);
    }
  }

  lemma {:induction false} MemcmpConcat(a: seq<Octet>, b: seq<Octet>, x: seq<Octet>, y: seq<Octet>)
    requires |a| == |b| && |x| == |y|
    ensures Memcmp(a + x, b + y) == if Memcmp(a, b) != 0 then Memcmp(a, b) else Memcmp(x, y)
  {
    if a == [] {
      assert a + x == x && b + y == y;
    } else {
      assert (a + x)[1..] == a[1..] + x && (b + y)[1..] == b[1..] + y;
      MemcmpConcat(a[1..], b[1..], x, y);
    }
  }

  // ---- Data set comparison

  /** The sign of a comparison of two numbers, as one-octet memcmp or a conditional computes it. */
  function Order(a: int, b: int): int { if a < b then -1 else if a > b then 1 else 0 }

  /** Part 2 of the comparison: the same grandmaster seen along two paths. */
  function CompareTopology(a: Record, b: Record, parent: Identity): int {
    if a.announce.stepsRemoved > b.announce.stepsRemoved + 1 then 1
    else if b.announce.stepsRemoved > a.announce.stepsRemoved + 1 then -1
    else if a.announce.stepsRemoved > b.announce.stepsRemoved then
      if a.sender.clock == parent then 0 else 1
    else if b.announce.stepsRemoved > a.announce.stepsRemoved then
      if b.sender.clock == parent then 0 else -1
    else Memcmp(a.sender.clock, b.sender.clock)
  }

  /** bmcDataSetComparison: negative if a is better, positive if b is. */
  function Compare(a: Record, b: Record, parent: Identity): int {
    var x, y := a.announce, b.announce;
    if x.grandmaster == y.grandmaster then CompareTopology(a, b, parent)
    else if x.priority1 != y.priority1 then Order(x.priority1, y.priority1)
    else if x.quality.clockClass != y.quality.clockClass then Order(x.quality.clockClass, y.quality.clockClass)
    else if x.quality.accuracy != y.quality.accuracy then Order(x.quality.accuracy, y.quality.accuracy)
    else if x.quality.variance != y.quality.variance then Order(x.quality.variance, y.quality.variance)
    else if x.priority2 != y.priority2 then Order(x.priority2, y.priority2)
    else Memcmp(x.grandmaster, y.grandmaster)
  }

  /** Whoever compares first, the verdict is the same. */
  lemma CompareAntisymmetric(a: Record, b: Record, parent: Identity)
    ensures Compare(a, b, parent) == -Compare(b, a, parent)
  {
    hide Memcmp;
    MemcmpAntisymmetric(a.announce.grandmaster, b.announce.grandmaster);
    MemcmpAntisymmetric(a.sender.clock, b.sender.clock);
  }

  /** One grandmaster is announced with one set of attributes. */
  predicate Coherent(a: Record, b: Record) {
    a.announce.grandmaster == b.announce.grandmaster ==>
      a.announce.priority1 == b.announce.priority1 && a.announce.quality == b.announce.quality
      && a.announce.priority2 == b.announce.priority2
  }

  /** The error case of part 2: the record one hop further away was sent by the parent. */
  predicate SenderIsParent(a: Record, b: Record, parent: Identity) {
    a.announce.grandmaster == b.announce.grandmaster
    && ((a.announce.stepsRemoved == b.announce.stepsRemoved + 1 && a.sender.clock == parent)
        || (b.announce.stepsRemoved == a.announce.stepsRemoved + 1 && b.sender.clock == parent))
  }

  function Attributes(x: Announce): (s: seq<Octet>)
    ensures |s| == 6
  {
    [x.priority1, x.quality.clockClass, x.quality.accuracy] + Wide(x.quality.variance) + [x.priority2]
  }

  /** A record as one 24-octet key: grandmaster attributes and identity, then distance, then sender. */
  function Key(r: Record): (k: seq<Octet>)
    ensures |k| == 24
  {
    Attributes(r.announce) + (r.announce.grandmaster + (Wide(r.announce.stepsRemoved) + r.sender.clock))
  }

  lemma OctetOrder(x: Octet, y: Octet, a: seq<Octet>, b: seq<Octet>)
    requires |a| == |b|
    ensures Memcmp([x] + a, [y] + b) == if x != y then Order(x, y) else Memcmp(a, b)
  {
    assert ([x] + a)[1..] == a && ([y] + b)[1..] == b;
  }

  lemma WideOrder(x: UInt16, y: UInt16)
    ensures Memcmp(Wide(x), Wide(y)) == Order(x, y)
  {
    OctetOrder(x / 256, y / 256, [x % 256], [y % 256]);
    OctetOrder(x % 256, y % 256, [], []);
    assert Wide(x) == [x / 256] + [x % 256] && Wide(y) == [y / 256] + [y % 256];
    assert [x % 256] + [] == [x % 256] && [y % 256] + [] == [y % 256];
    assert x == 256 * (x / 256) + x % 256 && y == 256 * (y / 256) + y % 256;
  }

  lemma AttributesOrder(x: Announce, y: Announce)
    ensures Memcmp(Attributes(x), Attributes(y)) ==
      if x.priority1 != y.priority1 then Order(x.priority1, y.priority1)
      else if x.quality.clockClass != y.quality.clockClass then Order(x.quality.clockClass, y.quality.clockClass)
      else if x.quality.accuracy != y.quality.accuracy then Order(x.quality.accuracy, y.quality.accuracy)
      else if x.quality.variance != y.quality.variance then Order(x.quality.variance, y.quality.variance)
      else Order(x.priority2, y.priority2)
  {
    hide Memcmp, Wide;
    var u, v := Wide(x.quality.variance), Wide(y.quality.variance);
    assert Attributes(x) == [x.priority1] + ([x.quality.clockClass] + ([x.quality.accuracy] + (u + ([x.priority2] + []))));
    assert Attributes(y) == [y.priority1] + ([y.quality.clockClass] + ([y.quality.accuracy] + (v + ([y.priority2] + []))));
    var s, t := u + ([x.priority2] + []), v + ([y.priority2] + []);
    var s1, t1 := [x.quality.accuracy] + s, [y.quality.accuracy] + t;
    OctetOrder(x.priority1, y.priority1, [x.quality.clockClass] + s1, [y.quality.clockClass] + t1);
    OctetOrder(x.quality.clockClass, y.quality.clockClass, s1, t1);
    OctetOrder(x.quality.accuracy, y.quality.accuracy, s, t);
    MemcmpConcat(u, v, [x.priority2] + [], [y.priority2] + []);
    WideOrder(x.quality.variance, y.quality.variance);
    OctetOrder(x.priority2, y.priority2, [], []);
    MemcmpZeroIff([], []);
  }

  /** The seven-level decision tree is one lexicographic comparison when neither error condition holds. */
  lemma CompareIsKeyOrder(a: Record, b: Record, parent: Identity)
    requires Coherent(a, b) && !SenderIsParent(a, b, parent)
    ensures Compare(a, b, parent) == Memcmp(Key(a), Key(b))
  {
    hide Memcmp, Attributes, Wide;
    var x, y := a.announce, b.announce;
    var u, v := Wide(x.stepsRemoved) + a.sender.clock, Wide(y.stepsRemoved) + b.sender.clock;
    MemcmpConcat(Attributes(x), Attributes(y), x.grandmaster + u, y.grandmaster + v);
    MemcmpConcat(x.grandmaster, y.grandmaster, u, v);
    MemcmpConcat(Wide(x.stepsRemoved), Wide(y.stepsRemoved), a.sender.clock, b.sender.clock);
    AttributesOrder(x, y);
    MemcmpZeroIff(x.grandmaster, y.grandmaster);
    WideOrder(x.stepsRemoved, y.stepsRemoved);
  }

  /** In the error case the records count as equal, although the key of the nearer one is smaller. */
  lemma SenderIsParentIsOffKey(a: Record, b: Record, parent: Identity)
    requires Coherent(a, b) && SenderIsParent(a, b, parent)
    ensures Compare(a, b, parent) == 0 && Memcmp(Key(a), Key(b)) != 0
  {
    hide Memcmp, Attributes, Wide;
    var x, y := a.announce, b.announce;
    var u, v := Wide(x.stepsRemoved) + a.sender.clock, Wide(y.stepsRemoved) + b.sender.clock;
    MemcmpConcat(Attributes(x), Attributes(y), x.grandmaster + u, y.grandmaster + v);
    MemcmpConcat(x.grandmaster, y.grandmaster, u, v);
    MemcmpConcat(Wide(x.stepsRemoved), Wide(y.stepsRemoved), a.sender.clock, b.sender.clock);
    AttributesOrder(x, y);
    MemcmpZeroIff(x.grandmaster, y.grandmaster);
    WideOrder(x.stepsRemoved, y.stepsRemoved);
  }

  lemma SameAttributesIff(x: Announce, y: Announce)
    ensures Attributes(x) == Attributes(y) <==>
      x.priority1 == y.priority1 && x.quality == y.quality && x.priority2 == y.priority2
  {
    hide Memcmp, Attributes;
    AttributesOrder(x, y);
    MemcmpZeroIff(Attributes(x), Attributes(y));
  }

  /** Different attributes decide the key order. */
  lemma AttributesDecideKey(a: Record, b: Record)
    requires Attributes(a.announce) != Attributes(b.announce)
    ensures Memcmp(Key(a), Key(b)) == Memcmp(Attributes(a.announce), Attributes(b.announce))
  {
    hide Memcmp, Attributes, Wide;
    var x, y := a.announce, b.announce;
    var u, v := Wide(x.stepsRemoved) + a.sender.clock, Wide(y.stepsRemoved) + b.sender.clock;
    MemcmpConcat(Attributes(x), Attributes(y), x.grandmaster + u, y.grandmaster + v);
    MemcmpZeroIff(Attributes(x), Attributes(y));
  }

  /**
   * For any two records the decision tree is the lexicographic comparison exactly when they name different
   * grandmasters, or the same one with the same attributes and without the error case, or the same one with different
   * attributes that happen to order them as distance and sender do.
   */
  lemma CompareIsKeyOrderIff(a: Record, b: Record, parent: Identity)
    ensures Compare(a, b, parent) == Memcmp(Key(a), Key(b)) <==>
      (a.announce.grandmaster == b.announce.grandmaster ==>
         if Attributes(a.announce) == Attributes(b.announce) then !SenderIsParent(a, b, parent)
         else CompareTopology(a, b, parent) == Memcmp(Attributes(a.announce), Attributes(b.announce)))
  {
    hide Memcmp, Key, Attributes, SenderIsParent, CompareTopology;
    SameAttributesIff(a.announce, b.announce);
    if a.announce.grandmaster != b.announce.grandmaster {
      OtherGrandmasters(a, b, parent);
    } else if Attributes(a.announce) != Attributes(b.announce) {
      AttributesDecideKey(a, b);
    } else if SenderIsParent(a, b, parent) {
      SenderIsParentIsOffKey(a, b, parent);
    } else {
      CompareIsKeyOrder(a, b, parent);
    }
  }

  lemma OtherGrandmasters(a: Record, b: Record, parent: Identity)
    requires a.announce.grandmaster != b.announce.grandmaster
    ensures Compare(a, b, parent) == Memcmp(Key(a), Key(b))
  {
    hide Memcmp, Key, Compare;
    CompareIsKeyOrder(a, b, parent);
  }

  // ---- Where the comparison is not an order

  function Example(grandmaster: Octet, priority1: Octet, stepsRemoved: UInt16, sender: Octet): Record {
    var no := Flags(false, false, false, false, false, false);
    Record(PortIdentity([sender, 0, 0, 0, 0, 0, 0, 0], 1), no,
           Announce(0, priority1, Quality(248, 0, 0), 128, [grandmaster, 0, 0, 0, 0, 0, 0, 0], stepsRemoved, 0xA0))
  }

  /** One grandmaster announced with two priorities makes a cycle, so the chosen record depends on the table order. */
  lemma IncoherentRecordsCycle()
    ensures var (a, b, c) := (Example(1, 200, 0, 1), Example(1, 100, 0, 2), Example(2, 150, 0, 3));
      var parent := Example(0, 0, 0, 9).sender.clock;
      !Coherent(a, b) && Compare(a, b, parent) < 0 && Compare(b, c, parent) < 0 && Compare(c, a, parent) < 0
  {}

  /** The error case of part 2 calls records equal of which one is better than another. */
  lemma SenderIsParentBreaksEquality()
    ensures var (a, b, c) := (Example(1, 100, 1, 9), Example(1, 100, 0, 1), Example(1, 100, 0, 2));
      var parent := Example(0, 0, 0, 9).sender.clock;
      && SenderIsParent(a, b, parent)
      && Compare(a, b, parent) == 0 && Compare(a, c, parent) == 0 && Compare(b, c, parent) < 0
  {}

  // ---- Choosing among the foreign records

  predicate Consistent(rs: seq<Record>, parent: Identity) {
    forall i, j :: 0 <= i < |rs| && 0 <= j < |rs| ==> Coherent(rs[i], rs[j]) && !SenderIsParent(rs[i], rs[j], parent)
  }

  /** The scan of bmcExec over the first n records. */
  function Best(rs: seq<Record>, parent: Identity, n: nat): (b: nat)
    requires n <= |rs|
    ensures if n > 0 then b < n else b == 0
  {
    if n <= 1 then 0
    else
      var b := Best(rs, parent, n - 1);
      if Compare(rs[n - 1], rs[b], parent) < 0 then n - 1 else b
  }

  /** On a consistent table the scan finds the first record that no other beats. */
  lemma {:induction false} BestIsFirstLeast(rs: seq<Record>, parent: Identity, n: nat)
    requires 0 < n <= |rs| && Consistent(rs, parent)
    ensures forall k :: 0 <= k < n ==> Compare(rs[Best(rs, parent, n)], rs[k], parent) <= 0
    ensures forall k :: 0 <= k < Best(rs, parent, n) ==> Compare(rs[Best(rs, parent, n)], rs[k], parent) < 0
  {
    hide Compare, Coherent, SenderIsParent;
    var b := Best(rs, parent, n);
    if n == 1 {
      CompareIsKeyOrder(rs[0], rs[0], parent);
      MemcmpZeroIff(Key(rs[0]), Key(rs[0]));
    } else {
      BestIsFirstLeast(rs, parent, n - 1);
      var b' := Best(rs, parent, n - 1);
      CompareAntisymmetric(rs[n - 1], rs[b'], parent);
      CompareIsKeyOrder(rs[b], rs[b], parent);
      MemcmpZeroIff(Key(rs[b]), Key(rs[b]));
      forall k | 0 <= k < n - 1
        ensures Compare(rs[b], rs[k], parent) <= 0 && (b == n - 1 ==> Compare(rs[b], rs[k], parent) < 0)
      {
        CompareIsKeyOrder(rs[n - 1], rs[b'], parent);
        CompareIsKeyOrder(rs[b'], rs[k], parent);
        CompareIsKeyOrder(rs[b], rs[k], parent);
        MemcmpTransitive(Key(rs[n - 1]), Key(rs[b']), Key(rs[k]));
      }
    }
  }

  // ---- State decision

  datatype Options = Options(quality: Quality, priority1: Octet, priority2: Octet, utcOffset: int, slaveOnly: bool)

  /** initData copies the configured class before it makes a slave-only configuration class 255. */
  function InitDefault(o: Options, identity: Identity): (DefaultDS, Options) {
    (DefaultDS(identity, o.quality, o.priority1, o.priority2),
     if o.slaveOnly then o.(quality := o.quality.(clockClass := SLAVE_ONLY_CLOCK_CLASS)) else o)
  }

  /** So a slave-only clock has class 255 from the second initialisation on, before that only if so configured. */
  lemma SlaveOnlyClassComesLate(o: Options, identity: Identity)
    requires o.slaveOnly
    ensures var (first, o1) := InitDefault(o, identity);
      first.quality.clockClass == SLAVE_ONLY_CLOCK_CLASS <==> o.quality.clockClass == SLAVE_ONLY_CLOCK_CLASS
    ensures var (first, o1) := InitDefault(o, identity);
      InitDefault(o1, identity).0.quality.clockClass == SLAVE_ONLY_CLOCK_CLASS && InitDefault(o1, identity).1 == o1
  {}

  /** All else is as configured, the options included. */
  lemma InitTakesOptions(o: Options, identity: Identity)
    ensures var (d, o1) := InitDefault(o, identity);
      && d.identity == identity && d.quality == o.quality && d.priority1 == o.priority1 && d.priority2 == o.priority2
      && (if o.slaveOnly then o1.(quality := o.quality) == o else o1 == o)
  {}

  /** The clock identity built from a six-octet port address. */
  function IdentityOf(mac: seq<Octet>): Identity
    requires |mac| == 6
  {
    [mac[0], mac[1], mac[2], 0xFF, 0xFE, mac[3], mac[4], mac[5]]
  }

  lemma IdentityIsInjective(m: seq<Octet>, n: seq<Octet>)
    requires |m| == |n| == 6
    ensures IdentityOf(m) == IdentityOf(n) <==> m == n
    ensures IdentityOf(m)[..3] == m[..3] && IdentityOf(m)[3..5] == [0xFF, 0xFE] && IdentityOf(m)[5..] == m[3..]
  {
    if IdentityOf(m) == IdentityOf(n) {
      assert forall i :: 0 <= i < 6 ==> m[i] == IdentityOf(m)[if i < 3 then i else i + 2];
      assert forall i :: 0 <= i < 6 ==> n[i] == IdentityOf(n)[if i < 3 then i else i + 2];
    }
  }

  /** copyD0 into a scratch message: what a comparison does not read keeps its old value. */
  function OwnRecord(d: DefaultDS, scratch: Record): Record {
    Record(PortIdentity(d.identity, scratch.sender.port), scratch.flags,
           scratch.announce.(priority1 := d.priority1, quality := d.quality, priority2 := d.priority2,
                             grandmaster := d.identity, stepsRemoved := 0))
  }

  /** m1: the local clock is its own parent and grandmaster. */
  function BecomeMaster(d: DefaultDS, o: Options, s: Sets): Sets {
    Sets(CurrentDS(0, Time(0, 0), Time(0, 0)),
         ParentDS(PortIdentity(d.identity, 0), d.identity, d.quality, d.priority1, d.priority2),
         TimePropertiesDS(o.utcOffset, s.timeProperties.flags.(utcValid := false), INTERNAL_OSCILLATOR))
  }

  /** The data sets of a clock that leads, as m1 leaves them. */
  predicate OwnSets(d: DefaultDS, s: Sets) {
    s.parent == ParentDS(PortIdentity(d.identity, 0), d.identity, d.quality, d.priority1, d.priority2)
    && s.current.stepsRemoved == 0
  }

  /** s1: parent and grandmaster come from the record; leap flags only in SLAVE, no UTC offset in PASSIVE. */
  function FollowRecord(state: PortState, o: Options, r: Record, s: Sets): Sets {
    var flags := s.timeProperties.flags;
    Sets(s.current.(stepsRemoved := (r.announce.stepsRemoved + 1) % 0x1_0000),
         ParentDS(r.sender, r.announce.grandmaster, r.announce.quality, r.announce.priority1, r.announce.priority2),
         TimePropertiesDS(
           if state == Passive then o.utcOffset else r.announce.utcOffset,
           r.flags.(utcValid := r.flags.utcValid && state != Passive,
                    leap59 := if state == Slave then r.flags.leap59 else flags.leap59,
                    leap61 := if state == Slave then r.flags.leap61 else flags.leap61),
           r.announce.timeSource))
  }

  /** bmcStateDecision. */
  function Decide(state: PortState, d: DefaultDS, o: Options, records: nat, r: Record, scratch: Record, s: Sets):
    (PortState, Sets)
  {
    if o.slaveOnly then (Slave, FollowRecord(state, o, r, s))
    else if records == 0 && state == Listening then (Listening, s)
    else
      var comp := Compare(OwnRecord(d, scratch), r, s.parent.parent.clock);
      if comp < 0 then (Master, BecomeMaster(d, o, s))
      else if comp > 0 then (if d.quality.clockClass < 128 then Passive else Slave, FollowRecord(state, o, r, s))
      else (Faulty, s)
  }

  /** bmcExec on the first n entries of the record table: decided state, new data sets, best record. */
  function Exec(state: PortState, d: DefaultDS, o: Options, table: seq<Record>, n: nat, best: nat, scratch: Record, s: Sets):
    (PortState, Sets, nat)
    requires n <= |table| && table != []
  {
    if n == 0 && state == Master then (Master, BecomeMaster(d, o, s), best)
    else
      var b := Best(table, s.parent.parent.clock, n);
      var (decided, sets) := Decide(state, d, o, n, table[b], scratch, s);
      (decided, sets, b)
  }

  /** The scratch message does not matter. */
  lemma ExecIgnoresScratch(state: PortState, d: DefaultDS, o: Options, table: seq<Record>, n: nat, best: nat,
                           scratch: Record, other: Record, s: Sets)
    requires n <= |table| && table != []
    ensures Exec(state, d, o, table, n, best, scratch, s) == Exec(state, d, o, table, n, best, other, s)
  {
    hide Memcmp, Best, FollowRecord, BecomeMaster;
  }

  /** A slave-only clock is never decided to be anything but a slave, except that a master without records stays one. */
  lemma SlaveOnlyStaysSlave(state: PortState, d: DefaultDS, o: Options, table: seq<Record>, n: nat, best: nat,
                            scratch: Record, s: Sets)
    requires n <= |table| && table != [] && o.slaveOnly
    ensures Exec(state, d, o, table, n, best, scratch, s).0 == if n == 0 && state == Master then Master else Slave
  {}

  /** The error state: a record names this clock as grandmaster and comes from itself, or from its parent one hop off. */
  lemma FaultyIff(state: PortState, d: DefaultDS, o: Options, records: nat, r: Record, scratch: Record, s: Sets)
    ensures Decide(state, d, o, records, r, scratch, s).0 == Faulty <==>
      && !o.slaveOnly && !(records == 0 && state == Listening) && r.announce.grandmaster == d.identity
      && ((r.announce.stepsRemoved == 0 && r.sender.clock == d.identity)
          || (r.announce.stepsRemoved == 1 && r.sender.clock == s.parent.parent.clock))
  {
    hide Memcmp;
    MemcmpZeroIff(d.identity, r.announce.grandmaster);
    MemcmpZeroIff(d.identity, r.sender.clock);
  }

  // ---- Election

  /** The record that a receiver stores for an Announce of the clock d acting as its own grandmaster. */
  predicate Announces(d: DefaultDS, r: Record) {
    r == OwnRecord(d, r)
  }

  function OwnKey(d: DefaultDS): (k: seq<Octet>)
    ensures |k| == 24
  {
    Key(OwnRecord(d, Example(0, 0, 0, 0)))
  }

  predicate DistinctIdentities(ds: seq<DefaultDS>) {
    forall i, j :: 0 <= i < j < |ds| ==> ds[i].identity != ds[j].identity
  }

  /** The clock whose own data set beats all others. */
  predicate IsLeast(ds: seq<DefaultDS>, l: int) {
    0 <= l < |ds| && forall j :: 0 <= j < |ds| && j != l ==> Memcmp(OwnKey(ds[l]), OwnKey(ds[j])) < 0
  }

  predicate FromAnother(ds: seq<DefaultDS>, i: int, r: Record) {
    exists j :: 0 <= j < |ds| && j != i && Announces(ds[j], r)
  }

  predicate Holds(rs: seq<Record>, d: DefaultDS) {
    exists k :: 0 <= k < |rs| && Announces(d, rs[k])
  }

  /** A table that holds exactly the Announces of all other clocks, in any order. */
  predicate HearsOthers(ds: seq<DefaultDS>, i: int, rs: seq<Record>) {
    && (forall k :: 0 <= k < |rs| ==> FromAnother(ds, i, rs[k]))
    && (forall j :: 0 <= j < |ds| && j != i ==> Holds(rs, ds[j]))
  }

  lemma KeyOfAnnounce(d: DefaultDS, r: Record)
    requires Announces(d, r)
    ensures Key(r) == OwnKey(d) && r.announce.grandmaster == d.identity == r.sender.clock && r.announce.stepsRemoved == 0
  {}

  lemma OwnKeysDiffer(d: DefaultDS, e: DefaultDS)
    requires d.identity != e.identity
    ensures Memcmp(OwnKey(d), OwnKey(e)) != 0
  {
    hide Memcmp;
    MemcmpZeroIff(OwnKey(d), OwnKey(e));
    KeyHoldsIdentity(d);
    KeyHoldsIdentity(e);
  }

  lemma KeyHoldsIdentity(d: DefaultDS)
    ensures OwnKey(d)[16..] == d.identity
  {
    hide Attributes, Wide;
  }

  lemma {:induction false} LeastExists(ds: seq<DefaultDS>)
    requires ds != [] && DistinctIdentities(ds)
    ensures exists l :: IsLeast(ds, l)
  {
    hide OwnKey, Memcmp;
    if |ds| == 1 {
      assert IsLeast(ds, 0);
    } else {
      var n := |ds| - 1;
      LeastExists(ds[..n]);
      var l :| IsLeast(ds[..n], l);
      OwnKeysDiffer(ds[l], ds[n]);
      MemcmpAntisymmetric(OwnKey(ds[l]), OwnKey(ds[n]));
      if Memcmp(OwnKey(ds[l]), OwnKey(ds[n])) < 0 {
        assert forall j :: 0 <= j < n ==> ds[..n][j] == ds[j];
        assert IsLeast(ds, l);
      } else {
        forall j | 0 <= j < n
          ensures Memcmp(OwnKey(ds[n]), OwnKey(ds[j])) < 0
        {
          assert ds[..n][j] == ds[j];
          OwnKeysDiffer(ds[j], ds[n]);
          MemcmpTransitive(OwnKey(ds[n]), OwnKey(ds[l]), OwnKey(ds[j]));
        }
        assert IsLeast(ds, n);
      }
    }
  }

  /** The comparison of two own announces is the key order, whatever the parent. */
  lemma AnnouncesCompare(d: DefaultDS, r: Record, e: DefaultDS, q: Record, parent: Identity)
    requires Announces(d, r) && Announces(e, q) && (d.identity != e.identity || d == e)
    ensures Coherent(r, q) && !SenderIsParent(r, q, parent)
    ensures Compare(r, q, parent) == Memcmp(OwnKey(d), OwnKey(e))
  {
    hide Key, Memcmp, Compare;
    KeyOfAnnounce(d, r);
    KeyOfAnnounce(e, q);
    CompareIsKeyOrder(r, q, parent);
  }

  lemma Announcer(ds: seq<DefaultDS>, i: int, rs: seq<Record>, k: int) returns (j: int)
    requires HearsOthers(ds, i, rs) && 0 <= k < |rs|
    ensures 0 <= j < |ds| && j != i && Announces(ds[j], rs[k])
  {
    hide Announces;
    assert FromAnother(ds, i, rs[k]);
    j :| 0 <= j < |ds| && j != i && Announces(ds[j], rs[k]);
  }

  lemma RecordOf(ds: seq<DefaultDS>, i: int, rs: seq<Record>, j: int) returns (k: int)
    requires HearsOthers(ds, i, rs) && 0 <= j < |ds| && j != i
    ensures 0 <= k < |rs| && Announces(ds[j], rs[k])
  {
    hide Announces;
    assert Holds(rs, ds[j]);
    k :| 0 <= k < |rs| && Announces(ds[j], rs[k]);
  }

  lemma TableIsConsistent(ds: seq<DefaultDS>, i: int, rs: seq<Record>, parent: Identity)
    requires DistinctIdentities(ds) && HearsOthers(ds, i, rs)
    ensures Consistent(rs, parent)
  {
    hide Compare, OwnKey, Coherent, SenderIsParent, Announces, HearsOthers;
    forall a, b | 0 <= a < |rs| && 0 <= b < |rs|
      ensures Coherent(rs[a], rs[b]) && !SenderIsParent(rs[a], rs[b], parent)
    {
      var j := Announcer(ds, i, rs, a);
      var k := Announcer(ds, i, rs, b);
      AnnouncesCompare(ds[j], rs[a], ds[k], rs[b], parent);
    }
  }

  /** A losing clock's best record is the winner's announce. */
  lemma LosersBest(ds: seq<DefaultDS>, l: int, i: int, rs: seq<Record>, parent: Identity)
    requires DistinctIdentities(ds) && IsLeast(ds, l) && i != l && 0 <= i < |ds| && HearsOthers(ds, i, rs)
    ensures rs != [] && Announces(ds[l], rs[Best(rs, parent, |rs|)])
  {
    hide Compare, OwnKey, Memcmp, Announces, Consistent, Best, HearsOthers;
    var w := RecordOf(ds, i, rs, l);
    TableIsConsistent(ds, i, rs, parent);
    BestIsFirstLeast(rs, parent, |rs|);
    var b := Best(rs, parent, |rs|);
    var j := Announcer(ds, i, rs, b);
    AnnouncesCompare(ds[j], rs[b], ds[l], rs[w], parent);
    MemcmpAntisymmetric(OwnKey(ds[j]), OwnKey(ds[l]));
  }

  /** A clock d, the i-th of several with distinct identities, that has heard exactly the others; the l-th is the least. */
  predicate Electorate(ds: seq<DefaultDS>, l: int, i: int, d: DefaultDS, o: Options, rs: seq<Record>) {
    && DistinctIdentities(ds) && |ds| >= 2 && IsLeast(ds, l) && 0 <= i < |ds| && ds[i] == d && HearsOthers(ds, i, rs)
    && !o.slaveOnly
  }

  /** The least is master, the others follow it: PASSIVE if their class is below 128, otherwise as slaves. */
  predicate Elected(ds: seq<DefaultDS>, l: int, i: int, decided: PortState, s: Sets)
    requires 0 <= i < |ds| && 0 <= l < |ds|
  {
    && decided == (if i == l then Master else if ds[i].quality.clockClass < 128 then Passive else Slave)
    && s.parent.parent.clock == ds[l].identity
    && s.parent == ParentDS(s.parent.parent, ds[l].identity, ds[l].quality, ds[l].priority1, ds[l].priority2)
    && s.current.stepsRemoved == (if i == l then 0 else 1)
  }

  lemma {:induction false} BestOfPart(table: seq<Record>, parent: Identity, m: nat, n: nat)
    requires m <= n <= |table|
    ensures Best(table, parent, m) == Best(table[..n], parent, m)
    decreases m
  {
    if m > 1 {
      hide Compare;
      BestOfPart(table, parent, m - 1, n);
    }
  }

  /** The slots beyond the part in use do not matter. */
  lemma ExecIgnoresUnused(state: PortState, d: DefaultDS, o: Options, table: seq<Record>, n: nat, best: nat,
                          scratch: Record, s: Sets)
    requires 0 < n <= |table|
    ensures Exec(state, d, o, table, n, best, scratch, s) == Exec(state, d, o, table[..n], n, best, scratch, s)
  {
    hide Decide, Best;
    BestOfPart(table, s.parent.parent.clock, n, n);
  }

  lemma ElectionOfAll(ds: seq<DefaultDS>, l: int, i: int, state: PortState, o: Options, rs: seq<Record>, best: nat,
                      scratch: Record, s: Sets)
    requires 0 <= i < |ds| && Electorate(ds, l, i, ds[i], o, rs)
    ensures rs != []
    ensures var (decided, sets, _) := Exec(state, ds[i], o, rs, |rs|, best, scratch, s); Elected(ds, l, i, decided, sets)
  {
    hide Compare, OwnKey, Memcmp, Best, HearsOthers;
    var parent := s.parent.parent.clock;
    var own := OwnRecord(ds[i], scratch);
    var w := RecordOf(ds, i, rs, if i == 0 then 1 else 0);
    var b := Best(rs, parent, |rs|);
    if i == l {
      var j := Announcer(ds, i, rs, b);
      AnnouncesCompare(ds[i], own, ds[j], rs[b], parent);
    } else {
      LosersBest(ds, l, i, rs, parent);
      AnnouncesCompare(ds[i], own, ds[l], rs[b], parent);
      MemcmpAntisymmetric(OwnKey(ds[i]), OwnKey(ds[l]));
    }
  }

  /**
   * Unique election. Whatever their current states and data sets, of any number of clocks with distinct identities,
   * none slave-only, that each hold the others' announces in the part of their table that is in use, exactly the least
   * becomes master and all others follow it.
   */
  lemma Election(ds: seq<DefaultDS>, l: int, i: int, state: PortState, o: Options, table: seq<Record>, n: nat, best: nat,
                 scratch: Record, s: Sets)
    requires n <= |table| && 0 <= i < |ds| && Electorate(ds, l, i, ds[i], o, table[..n])
    ensures n > 0
    ensures var (decided, sets, _) := Exec(state, ds[i], o, table, n, best, scratch, s); Elected(ds, l, i, decided, sets)
  {
    hide Exec, Electorate, Elected;
    ElectionOfAll(ds, l, i, state, o, table[..n], best, scratch, s);
    ExecIgnoresUnused(state, ds[i], o, table, n, best, scratch, s);
  }

  lemma EveryElection(state: PortState, d: DefaultDS, o: Options, table: seq<Record>, n: nat, best: nat, scratch: Record,
                      s: Sets)
    requires n <= |table| && table != []
    ensures var (decided, sets, _) := Exec(state, d, o, table, n, best, scratch, s);
      forall ds: seq<DefaultDS>, l: int, i: int ::
        Electorate(ds, l, i, d, o, table[..n]) ==> Elected(ds, l, i, decided, sets)
  {
    var (decided, sets, _) := Exec(state, d, o, table, n, best, scratch, s);
    hide Exec, Elected, IsLeast, HearsOthers, DistinctIdentities;
    forall ds: seq<DefaultDS>, l: int, i: int | Electorate(ds, l, i, d, o, table[..n])
      ensures 0 <= l < |ds| && Elected(ds, l, i, decided, sets)
    {
      LeastIsOne(ds, l);
      Election(ds, l, i, state, o, table, n, best, scratch, s);
    }
  }

  lemma LeastIsOne(ds: seq<DefaultDS>, l: int)
    requires IsLeast(ds, l)
    ensures 0 <= l < |ds|
  {}

  lemma LeastIsUnique(ds: seq<DefaultDS>, l: int, m: int)
    requires IsLeast(ds, l) && IsLeast(ds, m)
    ensures l == m
  {
    hide OwnKey, Memcmp;
    if l != m {
      MemcmpAntisymmetric(OwnKey(ds[l]), OwnKey(ds[m]));
    }
  }

  lemma {:induction false} BestIgnoresParent(rs: seq<Record>, p: Identity, q: Identity, n: nat)
    requires n <= |rs| && Consistent(rs, p) && Consistent(rs, q)
    ensures Best(rs, p, n) == Best(rs, q, n)
  {
    if n > 1 {
      hide Compare, Coherent, SenderIsParent;
      BestIgnoresParent(rs, p, q, n - 1);
      CompareIsKeyOrder(rs[n - 1], rs[Best(rs, p, n - 1)], p);
      CompareIsKeyOrder(rs[n - 1], rs[Best(rs, p, n - 1)], q);
    }
  }

  lemma FollowingSettles(state: PortState, o: Options, r: Record, s: Sets)
    ensures FollowRecord(state, o, r, FollowRecord(state, o, r, s)) == FollowRecord(state, o, r, s)
  {}

  /** A clock that is a slave when it follows a record takes over all its time properties... */
  lemma SlaveTakesTimeProperties(o: Options, r: Record, s: Sets)
    ensures FollowRecord(Slave, o, r, s).timeProperties
         == TimePropertiesDS(r.announce.utcOffset, r.flags, r.announce.timeSource)
  {}

  /** ... and one that is not yet keeps its own leap flags, in PASSIVE also its configured and invalid UTC offset. */
  lemma OthersKeepLeapFlags(state: PortState, o: Options, r: Record, s: Sets)
    requires state != Slave
    ensures var t, f := FollowRecord(state, o, r, s).timeProperties, s.timeProperties.flags;
      && t.flags.leap59 == f.leap59 && t.flags.leap61 == f.leap61 && t.flags.timeTraceable == r.flags.timeTraceable
      && t.flags.frequencyTraceable == r.flags.frequencyTraceable && t.flags.ptpTimescale == r.flags.ptpTimescale
      && (state == Passive ==> t.utcOffset == o.utcOffset && !t.flags.utcValid)
      && (state != Passive ==> t.utcOffset == r.announce.utcOffset && t.flags.utcValid == r.flags.utcValid)
  {}

  /** What a first run has not left for a second one to correct: leap flags and UTC data depend on the state. */
  predicate SettlesAtOnce(decided: PortState, state: PortState, o: Options, r: Record, s: Sets) {
    var t, plain := s.timeProperties.flags, r.announce.utcOffset == o.utcOffset && !r.flags.utcValid;
    match decided {
      case Slave =>
        state == Slave
        || (t.leap59 == r.flags.leap59 && t.leap61 == r.flags.leap61 && (state == Passive ==> plain))
      case Passive => state == Passive || plain
      case _ => true
    }
  }

  lemma FollowsAgainIff(decided: PortState, state: PortState, o: Options, r: Record, s: Sets)
    requires decided == Slave || decided == Passive
    ensures var s1 := FollowRecord(state, o, r, s);
      FollowRecord(decided, o, r, s1) == s1 <==> SettlesAtOnce(decided, state, o, r, s)
  {}

  /**
   * Rerunning on the same table in the decided state decides the same and keeps parent and distance. Nothing at all
   * changes exactly if the first run met data that need no correction; after a second run nothing ever does.
   */
  lemma RerunSettles(ds: seq<DefaultDS>, l: int, i: int, state: PortState, o: Options, table: seq<Record>, n: nat,
                     best: nat, scratch: Record, s: Sets)
    requires n <= |table| && 0 <= i < |ds| && Electorate(ds, l, i, ds[i], o, table[..n])
    ensures n > 0
    ensures var (d1, s1, b1) := Exec(state, ds[i], o, table, n, best, scratch, s);
      var (d2, s2, b2) := Exec(d1, ds[i], o, table, n, b1, scratch, s1);
      && d2 == d1 && b2 == b1 < n && s2.parent == s1.parent && s2.current == s1.current
      && (s2 == s1 <==> SettlesAtOnce(d1, state, o, table[b1], s))
      && Exec(d2, ds[i], o, table, n, b2, scratch, s2) == (d2, s2, b2)
  {
    hide Compare, OwnKey, Memcmp, Best, HearsOthers, IsLeast, DistinctIdentities, Consistent, OwnRecord, SettlesAtOnce;
    Election(ds, l, i, state, o, table, n, best, scratch, s);
    var (d1, s1, b1) := Exec(state, ds[i], o, table, n, best, scratch, s);
    Election(ds, l, i, d1, o, table, n, b1, scratch, s1);
    var (d2, s2, b2) := Exec(d1, ds[i], o, table, n, b1, scratch, s1);
    Election(ds, l, i, d2, o, table, n, b2, scratch, s2);
    SameBest(ds, i, table, n, s.parent.parent.clock, s1.parent.parent.clock);
    SameBest(ds, i, table, n, s.parent.parent.clock, s2.parent.parent.clock);
    if d1 == Master {
      MasterSettles(state, o, table[b1], s);
    } else {
      FollowsAgainIff(d1, state, o, table[b1], s);
      FollowingSettles(d1, o, table[b1], s1);
    }
  }

  lemma MasterSettles(state: PortState, o: Options, r: Record, s: Sets)
    ensures SettlesAtOnce(Master, state, o, r, s)
  {}

  lemma SameBest(ds: seq<DefaultDS>, i: int, table: seq<Record>, n: nat, p: Identity, q: Identity)
    requires n <= |table| && DistinctIdentities(ds) && HearsOthers(ds, i, table[..n])
    ensures Best(table, p, n) == Best(table, q, n)
  {
    hide Best, Consistent, DistinctIdentities, HearsOthers;
    TableIsConsistent(ds, i, table[..n], p);
    TableIsConsistent(ds, i, table[..n], q);
    BestIgnoresParent(table[..n], p, q, n);
    BestOfPart(table, p, n, n);
    BestOfPart(table, q, n, n);
  }

  function ExampleClock(identity: Octet, priority1: Octet): DefaultDS {
    DefaultDS([identity, 0, 0, 0, 0, 0, 0, 0], Quality(248, 0, 0), priority1, 128)
  }

  /** Two clocks; the second, still in LISTENING, hears the first announce a leap second. */
  lemma RerunMoves(o: Options, best: nat, scratch: Record, s: Sets)
    requires !o.slaveOnly && !s.timeProperties.flags.leap61
    ensures var ds := [ExampleClock(1, 100), ExampleClock(2, 200)];
      var table := [Example(1, 100, 0, 1).(flags := s.timeProperties.flags.(leap61 := true))];
      var (d1, s1, b1) := Exec(Listening, ds[1], o, table, 1, best, scratch, s);
      && Electorate(ds, 0, 1, ds[1], o, table)
      && Exec(d1, ds[1], o, table, 1, b1, scratch, s1).1 != s1
  {
    var ds := [ExampleClock(1, 100), ExampleClock(2, 200)];
    var table := [Example(1, 100, 0, 1).(flags := s.timeProperties.flags.(leap61 := true))];
    ExampleElectorate(ds, table[0], o);
    hide IsLeast, HearsOthers, DistinctIdentities, OwnKey, Memcmp, Exec, Electorate, Announces;
    assert table[..1] == table;
    Election(ds, 0, 1, Listening, o, table, 1, best, scratch, s);
    RerunSettles(ds, 0, 1, Listening, o, table, 1, best, scratch, s);
  }

  lemma ExampleElectorate(ds: seq<DefaultDS>, r: Record, o: Options)
    requires ds == [ExampleClock(1, 100), ExampleClock(2, 200)] && !o.slaveOnly
    requires Announces(ds[0], r)
    ensures Electorate(ds, 0, 1, ds[1], o, [r])
  {
    hide Announces;
    assert OwnKey(ds[0])[0] == 100 && OwnKey(ds[1])[0] == 200;
    assert FromAnother(ds, 1, r);
    assert Holds([r], ds[0]) by { assert [r][0] == r; }
  }

  // ---- Following a record

  /** Following a record names its sender as parent and takes grandmaster, attributes and distance from its Announce. */
  lemma FollowingTakesRecord(state: PortState, o: Options, r: Record, s: Sets)
    ensures var f := FollowRecord(state, o, r, s);
      && f.parent.parent == r.sender && f.parent.grandmaster == r.announce.grandmaster
      && f.parent.quality == r.announce.quality && f.parent.priority1 == r.announce.priority1
      && f.parent.priority2 == r.announce.priority2 && f.timeProperties.timeSource == r.announce.timeSource
      && f.current.stepsRemoved == (if r.announce.stepsRemoved == 0xFFFF then 0 else r.announce.stepsRemoved + 1)
      && f.current.offsetFromMaster == s.current.offsetFromMaster && f.current.meanPathDelay == s.current.meanPathDelay
  {}

  /** Leading resets parent, distance and UTC data; leap and traceability flags stay. */
  lemma LeadingTakesDefaults(d: DefaultDS, o: Options, s: Sets)
    ensures var f, t := BecomeMaster(d, o, s), s.timeProperties.flags;
      && OwnSets(d, f) && f.current == CurrentDS(0, Time(0, 0), Time(0, 0))
      && f.timeProperties.utcOffset == o.utcOffset && f.timeProperties.timeSource == INTERNAL_OSCILLATOR
      && !f.timeProperties.flags.utcValid && f.timeProperties.flags.(utcValid := t.utcValid) == t
  {}

  /** So whatever the table, a port decided SLAVE or PASSIVE names the grandmaster of the chosen record, one step on. */
  lemma ExecTakesRecord(state: PortState, d: DefaultDS, o: Options, table: seq<Record>, n: nat, best: nat, scratch: Record,
                        s: Sets)
    requires n <= |table| && table != []
    ensures var (decided, sets, b) := Exec(state, d, o, table, n, best, scratch, s);
      decided == Slave || decided == Passive ==>
        && b < |table| && sets.parent.parent == table[b].sender
        && sets.parent.grandmaster == table[b].announce.grandmaster
        && sets.parent.quality == table[b].announce.quality
        && sets.current.stepsRemoved == (table[b].announce.stepsRemoved + 1) % 0x1_0000
  {
    hide Compare, Best, BecomeMaster, OwnRecord;
  }

  // ---- Election among relayed records

  /** A record that names the clock d as grandmaster, with its attributes, over any distance and from any sender. */
  predicate Relays(d: DefaultDS, r: Record) {
    && r.announce.grandmaster == d.identity && r.announce.priority1 == d.priority1 && r.announce.quality == d.quality
    && r.announce.priority2 == d.priority2
  }

  predicate RelaysAnother(ds: seq<DefaultDS>, i: int, r: Record) {
    exists j :: 0 <= j < |ds| && j != i && Relays(ds[j], r)
  }

  predicate HoldsRelay(rs: seq<Record>, d: DefaultDS) {
    exists k :: 0 <= k < |rs| && Relays(d, rs[k])
  }

  /** A table in which every record names one of the other clocks and every other clock is named. */
  predicate HearsOfOthers(ds: seq<DefaultDS>, i: int, rs: seq<Record>) {
    && (forall k :: 0 <= k < |rs| ==> RelaysAnother(ds, i, rs[k]))
    && (forall j :: 0 <= j < |ds| && j != i ==> HoldsRelay(rs, ds[j]))
  }

  /** Relayed records of different grandmasters compare as those clocks themselves do. */
  lemma RelayedCompare(d: DefaultDS, r: Record, e: DefaultDS, q: Record, parent: Identity)
    requires Relays(d, r) && Relays(e, q) && d.identity != e.identity
    ensures Compare(r, q, parent) == Memcmp(OwnKey(d), OwnKey(e))
  {
    hide Memcmp, Compare, Key;
    var a, b := OwnRecord(d, Example(0, 0, 0, 0)), OwnRecord(e, Example(0, 0, 0, 0));
    OtherGrandmasters(a, b, parent);
    SameTree(r, q, a, b, parent);
  }

  lemma SameTree(r: Record, q: Record, a: Record, b: Record, parent: Identity)
    requires r.announce.grandmaster == a.announce.grandmaster != q.announce.grandmaster == b.announce.grandmaster
    requires r.announce.priority1 == a.announce.priority1 && r.announce.quality == a.announce.quality
    requires r.announce.priority2 == a.announce.priority2
    requires q.announce.priority1 == b.announce.priority1 && q.announce.quality == b.announce.quality
    requires q.announce.priority2 == b.announce.priority2
    ensures Compare(r, q, parent) == Compare(a, b, parent)
  {
    hide Memcmp;
  }

  lemma Relayer(ds: seq<DefaultDS>, i: int, rs: seq<Record>, k: int) returns (j: int)
    requires HearsOfOthers(ds, i, rs) && 0 <= k < |rs|
    ensures 0 <= j < |ds| && j != i && Relays(ds[j], rs[k])
  {
    hide Relays;
    assert RelaysAnother(ds, i, rs[k]);
    j :| 0 <= j < |ds| && j != i && Relays(ds[j], rs[k]);
  }

  lemma RelayOf(ds: seq<DefaultDS>, i: int, rs: seq<Record>, j: int) returns (k: int)
    requires HearsOfOthers(ds, i, rs) && 0 <= j < |ds| && j != i
    ensures 0 <= k < |rs| && Relays(ds[j], rs[k])
  {
    hide Relays;
    assert HoldsRelay(rs, ds[j]);
    k :| 0 <= k < |rs| && Relays(ds[j], rs[k]);
  }

  /** On a consistent table a losing clock's best record is the winner's, by the shortest way. */
  lemma BestRelay(ds: seq<DefaultDS>, l: int, i: int, rs: seq<Record>, parent: Identity)
    requires DistinctIdentities(ds) && IsLeast(ds, l) && i != l && 0 <= i < |ds| && HearsOfOthers(ds, i, rs)
    requires Consistent(rs, parent)
    ensures rs != [] && Relays(ds[l], rs[Best(rs, parent, |rs|)])
    ensures forall k :: 0 <= k < |rs| && Relays(ds[l], rs[k]) ==>
      rs[Best(rs, parent, |rs|)].announce.stepsRemoved <= rs[k].announce.stepsRemoved
  {
    hide Compare, OwnKey, Memcmp, Relays, Consistent, Best, HearsOfOthers;
    var w := RelayOf(ds, i, rs, l);
    BestIsFirstLeast(rs, parent, |rs|);
    var b := Best(rs, parent, |rs|);
    var j := Relayer(ds, i, rs, b);
    if j != l {
      RelayedCompare(ds[j], rs[b], ds[l], rs[w], parent);
      MemcmpAntisymmetric(OwnKey(ds[j]), OwnKey(ds[l]));
    }
    forall k | 0 <= k < |rs| && Relays(ds[l], rs[k])
      ensures rs[b].announce.stepsRemoved <= rs[k].announce.stepsRemoved
    {
      ConsistentPair(rs, parent, b, k);
      NearerIsBetter(ds[l], rs[b], rs[k], parent);
    }
  }

  lemma ConsistentPair(rs: seq<Record>, parent: Identity, i: int, j: int)
    requires Consistent(rs, parent) && 0 <= i < |rs| && 0 <= j < |rs|
    ensures Coherent(rs[i], rs[j]) && !SenderIsParent(rs[i], rs[j], parent)
  {}

  lemma NearerIsBetter(d: DefaultDS, r: Record, q: Record, parent: Identity)
    requires Relays(d, r) && Relays(d, q) && !SenderIsParent(r, q, parent) && Compare(r, q, parent) <= 0
    ensures r.announce.stepsRemoved <= q.announce.stepsRemoved
  {
    hide Memcmp;
  }

  /**
   * The election with relays in between. Of any number of clocks that hear of each other over any distance, from any
   * senders, in a consistent table, exactly the least becomes master; the others follow a record that names it, by the
   * shortest way, and count one step more than that record.
   */
  lemma RelayedElection(ds: seq<DefaultDS>, l: int, i: int, state: PortState, o: Options, table: seq<Record>, n: nat,
                        best: nat, scratch: Record, s: Sets)
    requires n <= |table| && DistinctIdentities(ds) && |ds| >= 2 && IsLeast(ds, l) && 0 <= i < |ds|
    requires HearsOfOthers(ds, i, table[..n]) && Consistent(table[..n], s.parent.parent.clock) && !o.slaveOnly
    ensures n > 0
    ensures var (decided, sets, b) := Exec(state, ds[i], o, table, n, best, scratch, s);
      && decided == (if i == l then Master else if ds[i].quality.clockClass < 128 then Passive else Slave)
      && (i == l ==> OwnSets(ds[i], sets))
      && (i != l ==>
            && b < n && Relays(ds[l], table[b])
            && sets.parent == ParentDS(table[b].sender, ds[l].identity, ds[l].quality, ds[l].priority1, ds[l].priority2)
            && sets.current.stepsRemoved == (table[b].announce.stepsRemoved + 1) % 0x1_0000
            && forall k :: 0 <= k < n && Relays(ds[l], table[k]) ==>
                 table[b].announce.stepsRemoved <= table[k].announce.stepsRemoved)
  {
    hide Compare, OwnKey, Memcmp, Best, HearsOfOthers, Consistent, IsLeast;
    var rs, parent := table[..n], s.parent.parent.clock;
    var own := OwnRecord(ds[i], scratch);
    var w := RelayOf(ds, i, rs, if i == 0 then 1 else 0);
    ExecIgnoresUnused(state, ds[i], o, table, n, best, scratch, s);
    var b := Best(rs, parent, n);
    var j := Relayer(ds, i, rs, b);
    RelayedCompare(ds[i], own, ds[j], rs[b], parent);
    if i == l {
      LeastBeats(ds, l, j);
      LeadingTakesDefaults(ds[i], o, s);
    } else {
      LeastBeats(ds, l, i);
      BestRelay(ds, l, i, rs, parent);
      RelayedCompare(ds[i], own, ds[l], rs[b], parent);
      MemcmpAntisymmetric(OwnKey(ds[i]), OwnKey(ds[l]));
      assert forall k :: 0 <= k < n ==> rs[k] == table[k];
    }
  }

  lemma LeastBeats(ds: seq<DefaultDS>, l: int, j: int)
    requires IsLeast(ds, l) && 0 <= j < |ds| && j != l
    ensures 0 <= l < |ds| && Memcmp(OwnKey(ds[l]), OwnKey(ds[j])) < 0
  {}

  // ---- The algorithm on the clock object

  class PtpClock {
    var portState: PortState
    var defaults: DefaultDS
    var sets: Sets
    const table: ForeignTable
    var msgTmp: Record

    constructor (d: DefaultDS, s: Sets, scratch: Record, foreign: ForeignTable)
      ensures portState == Initializing && defaults == d && sets == s && msgTmp == scratch && table == foreign
    {
      portState, defaults, sets, msgTmp := Initializing, d, s, scratch;
      table := foreign;
    }

    method M1(o: Options)
      modifies this`sets
      ensures sets == BecomeMaster(defaults, o, old(sets))
    {
      sets := sets.(current := CurrentDS(0, Time(0, 0), Time(0, 0)));
      sets := sets.(parent := sets.parent.(parent := PortIdentity(defaults.identity, 0), grandmaster := defaults.identity));
      sets := sets.(parent := sets.parent.(quality := defaults.quality));
      sets := sets.(parent := sets.parent.(priority1 := defaults.priority1, priority2 := defaults.priority2));
      sets := sets.(timeProperties := sets.timeProperties.(timeSource := INTERNAL_OSCILLATOR));
      sets := sets.(timeProperties := sets.timeProperties.(
                      flags := sets.timeProperties.flags.(utcValid := false), utcOffset := o.utcOffset));
    }

    method P1(o: Options)
      modifies this`sets
      ensures sets == if portState == Passive then
                        old(sets).(timeProperties := old(sets).timeProperties.(
                          flags := old(sets).timeProperties.flags.(utcValid := false), utcOffset := o.utcOffset))
                      else old(sets)
    {
      if portState == Passive {
        sets := sets.(timeProperties := sets.timeProperties.(
                        flags := sets.timeProperties.flags.(utcValid := false), utcOffset := o.utcOffset));
      }
    }

    /** The current and parent data sets of s1. */
    method TakeParent(r: Record)
      modifies this`sets
      ensures sets.current == old(sets.current).(stepsRemoved := (r.announce.stepsRemoved + 1) % 0x1_0000)
      ensures sets.parent == ParentDS(r.sender, r.announce.grandmaster, r.announce.quality, r.announce.priority1,
                                      r.announce.priority2)
      ensures sets.timeProperties == old(sets.timeProperties)
    {
      sets := sets.(current := sets.current.(stepsRemoved := (r.announce.stepsRemoved + 1) % 0x1_0000));
      sets := sets.(parent := sets.parent.(parent := r.sender, grandmaster := r.announce.grandmaster));
      sets := sets.(parent := sets.parent.(quality := r.announce.quality));
      sets := sets.(parent := sets.parent.(priority1 := r.announce.priority1, priority2 := r.announce.priority2));
    }

    /** The UTC data of s1: none in PASSIVE. */
    method TakeUtc(r: Record, o: Options)
      modifies this`sets
      ensures var t := old(sets.timeProperties);
        sets == old(sets).(timeProperties := t.(
          utcOffset := if portState == Passive then o.utcOffset else r.announce.utcOffset,
          flags := t.flags.(utcValid := r.flags.utcValid && portState != Passive)))
    {
      var flags := sets.timeProperties.flags.(utcValid := r.flags.utcValid);
      sets := sets.(timeProperties := sets.timeProperties.(utcOffset := r.announce.utcOffset, flags := flags));
      P1(o);
    }

    method S1(r: Record, o: Options)
      modifies this`sets
      ensures sets == FollowRecord(portState, o, r, old(sets))
    {
      TakeParent(r);
      TakeUtc(r, o);
      var flags := sets.timeProperties.flags;
      if portState == Slave {
        flags := flags.(leap59 := r.flags.leap59, leap61 := r.flags.leap61);
      }
      flags := flags.(timeTraceable := r.flags.timeTraceable, frequencyTraceable := r.flags.frequencyTraceable,
                      ptpTimescale := r.flags.ptpTimescale);
      sets := sets.(timeProperties := sets.timeProperties.(flags := flags, timeSource := r.announce.timeSource));
    }

    method CopyD0()
      modifies this`msgTmp
      ensures msgTmp == OwnRecord(defaults, old(msgTmp))
    {
      msgTmp := msgTmp.(announce := msgTmp.announce.(priority1 := defaults.priority1, grandmaster := defaults.identity));
      msgTmp := msgTmp.(announce := msgTmp.announce.(quality := defaults.quality, priority2 := defaults.priority2));
      msgTmp := msgTmp.(announce := msgTmp.announce.(stepsRemoved := 0));
      msgTmp := msgTmp.(sender := msgTmp.sender.(clock := defaults.identity));
    }

    method BmcStateDecision(r: Record, o: Options) returns (decided: PortState)
      modifies this`sets, this`msgTmp
      ensures (decided, sets)
           == Decide(portState, old(defaults), o, old(table.numberForeignRecords), r, old(msgTmp), old(sets))
    {
      hide Compare, OwnRecord, FollowRecord, BecomeMaster;
      if o.slaveOnly {
        S1(r, o);
        return Slave;
      }
      if table.numberForeignRecords == 0 && portState == Listening {
        return Listening;
      }
      CopyD0();
      var comp := Compare(msgTmp, r, sets.parent.parent.clock);
      if defaults.quality.clockClass < 128 {
        if comp < 0 {
          M1(o);
          return Master;
        } else if comp > 0 {
          S1(r, o);
          return Passive;
        }
      } else {
        if comp < 0 {
          M1(o);
          return Master;
        } else if comp > 0 {
          S1(r, o);
          return Slave;
        }
      }
      decided := Faulty;
    }

    method BmcExec(o: Options) returns (decided: PortState)
      requires InBounds(table.Contents())
      modifies this`sets, this`msgTmp, table`foreignRecordBest
      ensures (decided, sets, table.foreignRecordBest)
           == Exec(portState, defaults, o, RecordsOf(old(table.Contents())), table.numberForeignRecords,
                   old(table.foreignRecordBest), old(msgTmp), old(sets))
      ensures forall ds: seq<DefaultDS>, l: int, i: int ::
        Electorate(ds, l, i, defaults, o, RecordsOf(old(table.Contents()))[..table.numberForeignRecords]) ==>
          Elected(ds, l, i, decided, sets)
    {
      hide Compare, Decide, BecomeMaster, Electorate, Elected;
      ghost var rs := RecordsOf(table.Contents());
      EveryElection(portState, defaults, o, rs, table.numberForeignRecords, table.foreignRecordBest, msgTmp, sets);
      if table.numberForeignRecords == 0 {
        if portState == Master {
          M1(o);
          return portState;
        }
      }
      var i, best := 1, 0;
      while i < table.numberForeignRecords
        invariant 1 <= i && (i <= table.numberForeignRecords || i == 1)
        invariant 0 <= best < table.foreign.Length
        invariant best == Best(rs, sets.parent.parent.clock, if i <= table.numberForeignRecords then i else 0)
      {
        if Compare(table.foreign[i].record, table.foreign[best].record, sets.parent.parent.clock) < 0 {
          best := i;
        }
        i := i + 1;
      }
      table.foreignRecordBest := best;
      decided := BmcStateDecision(table.foreign[best].record, o);
    }
  }
}
