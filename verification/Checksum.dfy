/**
 The snapshot of the peers map and its checksum.  A snapshot lists the keys in whatever
 order the map is walked; the checksum sorts them first.
 */
module Checksum {
  import opened BigEndian

  predicate NoDuplicates(s: seq<U64>)
  {
    forall i, j :: 0 <= i < j < |s| ==> s[i] != s[j]
  }

  /** keys lists exactly the keys of m, each once. */
  ghost predicate Lists<V>(keys: seq<U64>, m: map<U64, V>)
  {
    NoDuplicates(keys) && forall k :: k in keys <==> k in m
  }

  /** Snapshot: a walk over the map in no particular order. */
  method Snapshot<V>(m: map<U64, V>) returns (keys: seq<U64>)
    ensures Lists(keys, m)
  {
    keys := [];
    var rest := m.Keys;
    while rest != {}
      invariant NoDuplicates(keys)
      invariant forall k :: k in keys ==> k !in rest
      invariant forall k :: k in keys || k in rest <==> k in m
      decreases |rest|
    {
      var k :| k in rest;
      keys := keys + [k];
      rest := rest - {k};
    }
  }

  predicate Ascending(s: seq<U64>)
  {
    forall i, j :: 0 <= i < j < |s| ==> s[i] < s[j]
  }

  function Insert(x: U64, s: seq<U64>): (r: seq<U64>)
    requires Ascending(s) && x !in s
    ensures Ascending(r) && forall y :: y in r <==> y == x || y in s
  {
    if s == [] then [x]
    else if x < s[0] then [x] + s
    else
      var rest := Insert(x, s[1..]);
      assert forall j :: 0 <= j < |rest| ==> rest[j] in rest && s[0] < rest[j];
      [s[0]] + rest
  }

  /** sort.SliceStable on the keys of a snapshot, which holds no key twice. */
  function Sort(s: seq<U64>): (r: seq<U64>)
    requires NoDuplicates(s)
    ensures Ascending(r) && forall y :: y in r <==> y in s
  {
    if s == [] then [] else Insert(s[0], Sort(s[1..]))
  }

  /** Feeding the keys, eight bytes each, to the running checksum.  write is one
      crc.Write: CRC-64 is not modelled, and any such function will do. */
  ghost function Digest(write: (U64, seq<U8>) -> U64, crc: U64, keys: seq<U64>): U64
    decreases |keys|
  {
    if keys == [] then crc else Digest(write, write(crc, PutU64(keys[0])), keys[1..])
  }

  /** The checksum goes through states: it begins at initial, and each key's eight bytes are
      written to it in turn. */
  ghost predicate Feeds(write: (U64, seq<U8>) -> U64, initial: U64, keys: seq<U64>, states: seq<U64>)
  {
    && |states| == |keys| + 1 && states[0] == initial
    && forall i :: 0 <= i < |keys| ==> states[i + 1] == write(states[i], PutU64(keys[i]))
  }

  lemma {:induction false} DigestFeeds(
      write: (U64, seq<U8>) -> U64, initial: U64, keys: seq<U64>, states: seq<U64>)
    requires Feeds(write, initial, keys, states)
    ensures Digest(write, initial, keys) == states[|keys|]
    decreases |keys|
  {
    if keys != [] {
      assert states[1] == write(initial, PutU64(keys[0]));
      forall i | 0 <= i < |keys[1..]|
        ensures states[1..][i + 1] == write(states[1..][i], PutU64(keys[1..][i]))
      {
        assert states[(i + 1) + 1] == write(states[i + 1], PutU64(keys[i + 1]));
      }
      DigestFeeds(write, states[1], keys[1..], states[1..]);
    }
  }

  /** keys lists what snapshot lists, in ascending order. */
  ghost predicate SortedListOf(keys: seq<U64>, snapshot: seq<U64>)
  {
    Ascending(keys) && forall y :: y in keys <==> y in snapshot
  }

  /** CRC64 over one snapshot: the last state of feeding it the keys in ascending order. */
  method CRC64(write: (U64, seq<U8>) -> U64, initial: U64, snapshot: seq<U64>) returns (crc: U64)
    requires NoDuplicates(snapshot)
    ensures crc == Digest(write, initial, Sort(snapshot))
    ensures forall keys, states ::
      SortedListOf(keys, snapshot) && Feeds(write, initial, keys, states) ==> crc == states[|keys|]
  {
    var peers := Sort(snapshot);
    var b := new U8[8](_ => 0);
    crc := initial;
    var i := 0;
    while i < |peers|
      invariant 0 <= i <= |peers|
      invariant Digest(write, initial, peers) == Digest(write, crc, peers[i..])
    {
      PutUint64(b, 0, peers[i]);
      assert b[..] == PutU64(peers[i]) by { assert b[..] == b[..8]; }
      crc := write(crc, b[..]);
      assert peers[i..][1..] == peers[i + 1..];
      i := i + 1;
    }
    forall keys, states | SortedListOf(keys, snapshot) && Feeds(write, initial, keys, states)
      ensures crc == states[|keys|]
    {
      SortedUnique(keys, peers);
      DigestFeeds(write, initial, keys, states);
    }
  }

  /** A sorted list is determined by the set of what it holds. */
  lemma {:induction false} SortedUnique(a: seq<U64>, b: seq<U64>)
    requires Ascending(a) && Ascending(b) && forall y :: y in a <==> y in b
    ensures a == b
  {
    assert a != [] ==> a[0] in b;
    assert b != [] ==> b[0] in a;
    if a != [] {
      assert a[0] == b[0];
      TailOf(a);
      TailOf(b);
      SortedUnique(a[1..], b[1..]);
      assert a == [a[0]] + a[1..] && b == [b[0]] + b[1..];
    }
  }

  lemma TailOf(a: seq<U64>)
    requires Ascending(a) && a != []
    ensures Ascending(a[1..]) && forall y :: y in a[1..] <==> y in a && y != a[0]
  {
    forall y | y in a && y != a[0]
      ensures y in a[1..]
    {
      var i :| 0 <= i < |a| && a[i] == y;
      assert a[1..][i - 1] == y;
    }
  }

  /** The checksum depends on the key set alone: every two walks over the same keys, in
      whatever order, give the same value. */
  lemma OrderIrrelevant<V>(write: (U64, seq<U8>) -> U64, initial: U64, m: map<U64, V>, a: seq<U64>, b: seq<U64>)
    requires Lists(a, m) && Lists(b, m)
    ensures Digest(write, initial, Sort(a)) == Digest(write, initial, Sort(b))
  {
    SortedUnique(Sort(a), Sort(b));
  }
}
