/** The foreign-master table of esl/sw/protocol.cpp: a scan from the best record and a ring of insert slots. */
module ForeignMasters {
  import opened Bits
  import opened TimeArith
  import opened DataSets

  const ANNOUNCES_RANGE := 0x1_0000

  datatype Foreign = Foreign(key: PortIdentity, announces: UInt16, record: Record)

  /** The first number entries are in use; slot is where the next unknown master goes. */
  datatype Table = Table(entries: seq<Foreign>, number: nat, best: nat, slot: nat)

  predicate InBounds(t: Table) {
    t.number <= |t.entries| && t.best < |t.entries| && t.slot < |t.entries|
  }

  function RecordsOf(t: Table): (rs: seq<Record>)
    ensures |rs| == |t.entries| && forall k :: 0 <= k < |rs| ==> rs[k] == t.entries[k].record
  {
    seq(|t.entries|, k requires 0 <= k < |t.entries| => t.entries[k].record)
  }

  /** Entries in use have distinct keys, the sender of a stored header is its key, and slots fill in order. */
  predicate Proper(t: Table) {
    && InBounds(t)
    && (forall i, j :: 0 <= i < j < t.number ==> t.entries[i].key != t.entries[j].key)
    && (forall i :: 0 <= i < t.number ==> t.entries[i].record.sender == t.entries[i].key)
    && (t.number < |t.entries| ==> t.slot == t.number)
  }

  /** The scan starts inside the table. */
  predicate Scannable(t: Table) {
    t.number > 0 ==> t.best < t.number
  }

  predicate Knows(t: Table, key: PortIdentity)
    requires InBounds(t)
  {
    exists k :: 0 <= k < t.number && t.entries[k].key == key
  }

  /** The index that the circular scan from best visits in round i. */
  function Around(best: nat, i: nat, n: nat): nat
    requires n > 0
  {
    if i == 0 then best else (best + i) % n
  }

  /** The scan from round i on: the first index with the key, or the size of the table if there is none. */
  function Search(t: Table, key: PortIdentity, i: nat): (p: nat)
    requires InBounds(t) && i <= t.number
    ensures p <= |t.entries| && (p < |t.entries| ==> t.entries[p].key == key)
    ensures Scannable(t) ==> p < t.number || p == |t.entries|
    decreases t.number - i
  {
    if i == t.number then |t.entries|
    else
      var j := Around(t.best, i, t.number);
      if t.entries[j].key == key then j else Search(t, key, i + 1)
  }

  /** addForeign: refresh the sender's entry, or put a new one into the next slot. */
  function Added(t: Table, r: Record): Table
    requires InBounds(t)
  {
    var p := Search(t, r.sender, 0);
    if p < |t.entries| then
      t.(entries := t.entries[p := Foreign(r.sender, (t.entries[p].announces + 1) % ANNOUNCES_RANGE, r)])
    else
      Table(t.entries[t.slot := Foreign(r.sender, 0, r)],
            if t.number < |t.entries| then t.number + 1 else t.number,
            t.best, (t.slot + 1) % |t.entries|)
  }

  /** The announce receipt timeout forgets all masters. */
  function Emptied(t: Table): Table { t.(number := 0, slot := 0) }

  /** initData forgets them too, but leaves the insert slot where it was. */
  function Reinitialized(t: Table): Table { t.(number := 0) }

  function Refreshed(t: Table, r: Record): Table
    requires InBounds(t)
  {
    t.(entries := t.entries[t.best := t.entries[t.best].(record := r)])
  }

  lemma ModStep(j: nat, n: nat)
    requires j < n
    ensures (j + 1) % n == if j + 1 < n then j + 1 else 0
  {}

  lemma {:induction false} ModNext(x: nat, n: nat)
    requires n > 0
    ensures (x % n + 1) % n == (x + 1) % n
  {
    if x >= n {
      ModNext(x - n, n);
      ModDrop(x, n);
      ModDrop(x + 1, n);
    }
  }

  lemma ModDrop(x: nat, n: nat)
    requires n > 0 && x >= n
    ensures x % n == (x - n) % n
  {
    assert x == x / n * n + x % n;
    assert x - n == (x / n - 1) * n + x % n;
    ModUnique(x - n, x / n - 1, x % n, n);
  }

  /** A circular scan of n entries from one of them meets every one. */
  lemma ScanReachesAll(best: nat, n: nat, k: nat)
    requires best < n && k < n
    ensures exists i :: 0 <= i < n && Around(best, i, n) == k
  {
    var i := if k >= best then k - best else k + n - best;
    if k < best {
      ModUnique(k + n, 1, k, n);
    } else {
      ModUnique(k, 0, k, n);
    }
    assert Around(best, i, n) == k;
  }

  lemma {:induction false} SearchMisses(t: Table, key: PortIdentity, i: nat, k: nat)
    requires InBounds(t) && i <= k < t.number && Search(t, key, i) == |t.entries|
    ensures Around(t.best, k, t.number) < |t.entries| && t.entries[Around(t.best, k, t.number)].key != key
    decreases t.number - i
  {
    if i < k {
      hide Around;
      SearchMisses(t, key, i + 1, k);
    }
  }

  /** From an entry in use the search finds every key in use. */
  lemma SearchFindsIff(t: Table, key: PortIdentity)
    requires InBounds(t) && Scannable(t)
    ensures Search(t, key, 0) < |t.entries| <==> Knows(t, key)
  {
    hide Search, Around;
    if Knows(t, key) && Search(t, key, 0) == |t.entries| {
      var k :| 0 <= k < t.number && t.entries[k].key == key;
      ScanReachesAll(t.best, t.number, k);
      var i :| 0 <= i < t.number && Around(t.best, i, t.number) == k;
      SearchMisses(t, key, 0, i);
    }
  }

  lemma AddedIsProper(t: Table, r: Record)
    requires Proper(t) && Scannable(t)
    ensures Proper(Added(t, r)) && Knows(Added(t, r), r.sender)
    ensures t.number <= Added(t, r).number <= t.number + 1
  {
    hide Search;
    var u, p := Added(t, r), Search(t, r.sender, 0);
    SearchFindsIff(t, r.sender);
    ModStep(t.slot, |t.entries|);
    if p < |t.entries| {
      assert u.entries[p].key == r.sender;
    } else {
      assert t.slot < u.number && u.entries[t.slot].key == r.sender;
      forall i, j | 0 <= i < j < u.number
        ensures u.entries[i].key != u.entries[j].key
      {
        assert i != t.slot ==> u.entries[i] == t.entries[i] && i < t.number;
        assert j != t.slot ==> u.entries[j] == t.entries[j] && j < t.number;
      }
    }
  }

  /** The sender's entry now holds this Announce, and every other entry in use what it held. */
  predicate Updates(t: Table, u: Table, r: Record)
    requires InBounds(t) && InBounds(u)
  {
    && (exists p :: 0 <= p < u.number && u.entries[p].key == r.sender && u.entries[p].record == r)
    && (forall k :: 0 <= k < u.number && u.entries[k].key != r.sender ==> k < t.number && u.entries[k] == t.entries[k])
  }

  /** Adding puts the record into the sender's entry, new or old, and into no other. */
  lemma AddedUpdates(t: Table, r: Record)
    requires Proper(t) && Scannable(t)
    ensures InBounds(Added(t, r)) && Updates(t, Added(t, r), r)
  {
    hide Search;
    var u, p := Added(t, r), Search(t, r.sender, 0);
    ModStep(t.slot, |t.entries|);
    if p < |t.entries| {
      assert u.entries[p].key == r.sender && u.entries[p].record == r;
    } else {
      assert u.entries[t.slot].key == r.sender && u.entries[t.slot].record == r && t.slot < u.number;
    }
  }

  /** A known sender's entry counts the Announce, a new one starts at zero. */
  lemma AddedCounts(t: Table, r: Record, p: nat)
    requires Proper(t) && Scannable(t) && p < Added(t, r).number && Added(t, r).entries[p].key == r.sender
    ensures Added(t, r).entries[p].announces ==
      if Knows(t, r.sender) then (t.entries[p].announces + 1) % ANNOUNCES_RANGE else 0
  {
    hide Search;
    AddedIsProper(t, r);
    SearchFindsIff(t, r.sender);
  }

  /** Adding loses no entry until the table is full, and then exactly the one in the slot. */
  lemma AddedKeepsOthers(t: Table, r: Record, key: PortIdentity)
    requires Proper(t) && Scannable(t) && Knows(t, key)
    ensures Knows(Added(t, r), key) <==>
      Knows(t, r.sender) || t.number < |t.entries| || key != t.entries[t.slot].key || key == r.sender
  {
    hide Search;
    var u, p := Added(t, r), Search(t, r.sender, 0);
    SearchFindsIff(t, r.sender);
    var k :| 0 <= k < t.number && t.entries[k].key == key;
    if p < |t.entries| {
      assert u.entries[k].key == key;
    } else if k != t.slot {
      assert u.entries[k].key == key;
    } else {
      assert u.entries[t.slot].key == r.sender;
    }
  }

  lemma EmptiedIsProper(t: Table)
    requires InBounds(t)
    ensures Proper(Emptied(t)) && Scannable(Emptied(t))
  {}

  /** Reinitialising keeps the table proper only if the ring happens to stand at its first slot. */
  lemma ReinitializedIsProperIff(t: Table)
    requires InBounds(t)
    ensures Proper(Reinitialized(t)) <==> t.slot == 0
  {}

  /** Otherwise the next master goes to a slot outside the part in use, which then holds an outdated entry. */
  lemma ReinitializedTableShowsOldEntry(t: Table, r: Record)
    requires Proper(t) && t.slot > 0
    ensures var u := Added(Reinitialized(t), r);
      u.number == 1 && RecordsOf(u)[0] == t.entries[0].record && RecordsOf(u)[t.slot] == r
  {}

  lemma RefreshedUpdates(t: Table, r: Record)
    requires Proper(t) && t.best < t.number && r.sender == t.entries[t.best].record.sender
    ensures InBounds(Refreshed(t, r)) && Updates(t, Refreshed(t, r), r)
  {
    assert Refreshed(t, r).entries[t.best].record == r;
  }

  lemma RefreshedIsProper(t: Table, r: Record)
    requires Proper(t) && (t.best < t.number ==> r.sender == t.entries[t.best].record.sender)
    ensures Proper(Refreshed(t, r))
  {}

  class ForeignTable {
    const foreign: array<Foreign>
    var numberForeignRecords: nat
    var foreignRecordBest: nat
    var foreignRecordI: nat

    function Contents(): Table
      reads this, foreign
    {
      Table(foreign[..], numberForeignRecords, foreignRecordBest, foreignRecordI)
    }

    constructor (maxForeignRecords: nat, blank: Record)
      requires maxForeignRecords > 0
      ensures Proper(Contents()) && Scannable(Contents()) && numberForeignRecords == 0
      ensures foreign.Length == maxForeignRecords && fresh(foreign)
    {
      foreign := new Foreign[maxForeignRecords](i => Foreign(blank.sender, 0, blank));
      numberForeignRecords, foreignRecordBest, foreignRecordI := 0, 0, 0;
    }

    /** The circular search: the index of the sender's entry, if it meets one. */
    method FindForeign(sender: PortIdentity) returns (found: bool, j: nat)
      requires InBounds(Contents())
      ensures found <==> Search(Contents(), sender, 0) < foreign.Length
      ensures found ==> j == Search(Contents(), sender, 0)
    {
      found, j := false, foreignRecordBest;
      var i := 0;
      while i < numberForeignRecords
        invariant 0 <= i <= numberForeignRecords
        invariant i < numberForeignRecords ==> j == Around(foreignRecordBest, i, numberForeignRecords)
        invariant Search(Contents(), sender, 0) == Search(Contents(), sender, i)
      {
        if foreign[j].key == sender {
          found := true;
          return;
        }
        NextRound(foreignRecordBest, i, numberForeignRecords);
        j := (j + 1) % numberForeignRecords;
        i := i + 1;
      }
    }

    method AddForeign(r: Record)
      requires InBounds(Contents())
      modifies this, foreign
      ensures Contents() == Added(old(Contents()), r)
    {
      hide Search;
      var found, j := FindForeign(r.sender);
      if found {
        foreign[j] := foreign[j].(announces := (foreign[j].announces + 1) % ANNOUNCES_RANGE);
        foreign[j] := foreign[j].(record := r);
      } else {
        if numberForeignRecords < foreign.Length {
          numberForeignRecords := numberForeignRecords + 1;
        }
        j := foreignRecordI;
        foreign[j] := foreign[j].(key := r.sender);
        foreign[j] := foreign[j].(announces := 0);
        foreign[j] := foreign[j].(record := r);
        foreignRecordI := (foreignRecordI + 1) % foreign.Length;
      }
    }
  }

  lemma NextRound(best: nat, i: nat, n: nat)
    requires n > 0
    ensures Around(best, i + 1, n) == (Around(best, i, n) + 1) % n
  {
    ModNext(best + i, n);
  }
}
