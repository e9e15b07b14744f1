/** Reading and writing octet strings at fixed offsets, in network order. */
module Layout {
  import opened Bits
  import opened DataSets

  type UInt32 = x: int | 0 <= x < 0x1_0000_0000

  function Wide32(x: UInt32): (s: seq<Octet>)
    ensures |s| == 4
  {
    Wide(x / 0x1_0000) + Wide(x % 0x1_0000)
  }

  function At16(f: seq<Octet>, m: nat): UInt16
    requires m + 1 < |f|
  {
    var high: int := f[m];
    high * 256 + f[m + 1]
  }

  function At32(f: seq<Octet>, m: nat): UInt32
    requires m + 3 < |f|
  {
    var high: int := At16(f, m);
    high * 0x1_0000 + At16(f, m + 2)
  }

  /** Writing octets over a part of a buffer. */
  function Write(b: seq<Octet>, at: nat, s: seq<Octet>): (r: seq<Octet>)
    requires at + |s| <= |b|
    ensures |r| == |b|
    ensures forall i :: 0 <= i < |b| ==> r[i] == if at <= i < at + |s| then s[i - at] else b[i]
  {
    b[..at] + s + b[at + |s|..]
  }

  /** The string s stands in f from m on. */
  predicate Follows(f: seq<Octet>, m: nat, s: seq<Octet>) {
    m + |s| <= |f| && forall i :: m <= i < m + |s| ==> f[i] == s[i - m]
  }

  lemma FollowsParts(f: seq<Octet>, m: nat, s: seq<Octet>, t: seq<Octet>)
    requires Follows(f, m, s + t)
    ensures Follows(f, m, s) && Follows(f, m + |s|, t)
  {
    forall i | m <= i < m + |s|
      ensures f[i] == s[i - m]
    {
      assert (s + t)[i - m] == s[i - m];
    }
    forall i | m + |s| <= i < m + |s| + |t|
      ensures f[i] == t[i - (m + |s|)]
    {
      assert (s + t)[i - m] == t[i - m - |s|];
    }
  }

  lemma FollowsAt16(f: seq<Octet>, m: nat, s: seq<Octet>, k: nat)
    requires Follows(f, m, s) && k + 1 < |s|
    ensures At16(f, m + k) == At16(s, k)
  {
    assert f[m + k] == s[k] && f[m + k + 1] == s[k + 1];
  }

  lemma FollowsOctet(f: seq<Octet>, m: nat, s: seq<Octet>, k: nat)
    requires Follows(f, m, s) && k < |s|
    ensures f[m + k] == s[k]
  {}

  lemma WideAt(x: UInt16)
    ensures At16(Wide(x), 0) == x
  {}

  lemma FollowsWide(f: seq<Octet>, m: nat, x: UInt16)
    requires Follows(f, m, Wide(x))
    ensures At16(f, m) == x
  {
    WideAt(x);
    FollowsAt16(f, m, Wide(x), 0);
  }

  lemma FollowsWide32(f: seq<Octet>, m: nat, x: UInt32)
    requires Follows(f, m, Wide32(x))
    ensures At32(f, m) == x
  {
    hide Wide, At16, Follows;
    FollowsParts(f, m, Wide(x / 0x1_0000), Wide(x % 0x1_0000));
    FollowsWide(f, m, x / 0x1_0000);
    FollowsWide(f, m + 2, x % 0x1_0000);
  }

  lemma WriteFollows(b: seq<Octet>, at: nat, s: seq<Octet>)
    requires at + |s| <= |b|
    ensures Follows(Write(b, at, s), at, s)
  {}

  /** A later write elsewhere leaves it standing. */
  lemma WriteKeeps(b: seq<Octet>, at: nat, s: seq<Octet>, m: nat, t: seq<Octet>)
    requires at + |s| <= |b| && Follows(b, m, t) && (m + |t| <= at || at + |s| <= m)
    ensures Follows(Write(b, at, s), m, t)
  {}
}
