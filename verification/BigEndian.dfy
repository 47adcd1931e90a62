/**
 Fixed-width unsigned integers and their big-endian byte form, as the wire codecs use
 them through Go's encoding/binary.
 */
module BigEndian {

  type U8 = x: nat | x < 0x100
  type U32 = x: nat | x < 0x1_0000_0000
  type U64 = x: nat | x < 0x1_0000_0000_0000_0000

  /** The largest length a Go slice can have: its length is a signed 64-bit int. */
  const MAX_LEN: nat := 0x7FFF_FFFF_FFFF_FFFF

  function Pow256(n: nat): (p: nat)
    ensures p > 0
  {
    if n == 0 then 1 else 256 * Pow256(n - 1)
  }

  /** The n low-order bytes of x, most significant first. */
  function BeBytes(x: nat, n: nat): (b: seq<U8>)
    ensures |b| == n
    decreases n
  {
    if n == 0 then [] else BeBytes(x / 256, n - 1) + [x % 256]
  }

  function BeValue(b: seq<U8>): (x: nat)
    ensures x < Pow256(|b|)
  {
    if b == [] then 0 else BeValue(b[..|b| - 1]) * 256 + b[|b| - 1]
  }

  lemma PowBounds()
    ensures Pow256(4) == 0x1_0000_0000
    ensures Pow256(8) == 0x1_0000_0000_0000_0000
  {
    assert Pow256(2) == 0x1_0000;
    assert Pow256(4) == 0x1_0000_0000;
    assert Pow256(6) == 0x1_0000_0000_0000;
  }

  lemma {:induction false} ValueOfBytes(x: nat, n: nat)
    requires x < Pow256(n)
    ensures BeValue(BeBytes(x, n)) == x
    decreases n
  {
    if n > 0 {
      ValueOfBytes(x / 256, n - 1);
      var b := BeBytes(x, n);
      assert b[..n - 1] == BeBytes(x / 256, n - 1);
    }
  }

  lemma {:induction false} BytesOfValue(b: seq<U8>)
    ensures BeBytes(BeValue(b), |b|) == b
  {
    if b != [] {
      BytesOfValue(b[..|b| - 1]);
      assert b == b[..|b| - 1] + [b[|b| - 1]];
    }
  }

  /** n bytes are determined by their value. */
  lemma BytesUnique(b: seq<U8>, c: seq<U8>)
    requires |b| == |c| && BeValue(b) == BeValue(c)
    ensures b == c
  {
    BytesOfValue(b);
    BytesOfValue(c);
  }

  /** The eight bytes that PutUint64 writes for x. */
  ghost function PutU64(x: U64): (b: seq<U8>)
    ensures |b| == 8 && BeValue(b) == x
  {
    PowBounds();
    ValueOfBytes(x, 8);
    var b: seq<U8> :| |b| == 8 && BeValue(b) == x;
    b
  }

  /** Eight bytes read as a uint64. */
  function GetU64(b: seq<U8>): (x: U64)
    requires |b| == 8
    ensures PutU64(x) == b
  {
    PowBounds();
    BytesUnique(b, PutU64(BeValue(b)));
    BeValue(b)
  }

  ghost function PutU32(x: U32): (b: seq<U8>)
    ensures |b| == 4 && BeValue(b) == x
  {
    PowBounds();
    ValueOfBytes(x, 4);
    var b: seq<U8> :| |b| == 4 && BeValue(b) == x;
    b
  }

  function GetU32(b: seq<U8>): (x: U32)
    requires |b| == 4
    ensures PutU32(x) == b
  {
    PowBounds();
    BytesUnique(b, PutU32(BeValue(b)));
    BeValue(b)
  }

  function Zeros(n: nat): (z: seq<U8>)
    ensures |z| == n && forall i :: 0 <= i < n ==> z[i] == 0
  {
    seq(n, _ => 0)
  }

  /** What copy leaves in a fresh zeroed buffer of n bytes. */
  function CopyInto(src: seq<U8>, n: nat): (dst: seq<U8>)
    ensures |dst| == n
    ensures |src| == n ==> dst == src
    ensures forall i :: 0 <= i < n ==> dst[i] == if i < |src| then src[i] else 0
  {
    if |src| >= n then src[..n] else src + Zeros(n - |src|)
  }

  method PutUint64(buf: array<U8>, off: nat, x: U64)
    requires off + 8 <= buf.Length
    modifies buf
    ensures buf[..off + 8] == old(buf[..off]) + PutU64(x)
    ensures forall k :: off + 8 <= k < buf.Length ==> buf[k] == old(buf[k])
  {
    PutUint(buf, off, x, 8);
    PowBounds();
    ValueOfBytes(x, 8);
    BytesUnique(BeBytes(x, 8), PutU64(x));
  }

  method PutUint32(buf: array<U8>, off: nat, x: U32)
    requires off + 4 <= buf.Length
    modifies buf
    ensures buf[..off + 4] == old(buf[..off]) + PutU32(x)
    ensures forall k :: off + 4 <= k < buf.Length ==> buf[k] == old(buf[k])
  {
    PutUint(buf, off, x, 4);
    PowBounds();
    ValueOfBytes(x, 4);
    BytesUnique(BeBytes(x, 4), PutU32(x));
  }

  /** Writes the n low-order bytes of x at off, and nothing else. */
  method PutUint(buf: array<U8>, off: nat, x: nat, n: nat)
    requires off + n <= buf.Length
    modifies buf
    ensures buf[..off + n] == old(buf[..off]) + BeBytes(x, n)
    ensures forall k :: off + n <= k < buf.Length ==> buf[k] == old(buf[k])
  {
    var v, i := x, n;
    while i > 0
      invariant 0 <= i <= n
      invariant forall k :: 0 <= k < buf.Length && !(off + i <= k < off + n) ==> buf[k] == old(buf[k])
      invariant BeBytes(x, n) == BeBytes(v, i) + buf[off + i..off + n]
    {
      assert BeBytes(v, i) == BeBytes(v / 256, i - 1) + [v % 256];
      ghost var tail := buf[off + i..off + n];
      i := i - 1;
      buf[off + i] := v % 256;
      assert buf[off + i..off + n] == [v % 256] + tail;
      v := v / 256;
    }
    assert buf[..off + n] == buf[..off] + buf[off..off + n];
  }

  method PutByte(buf: array<U8>, off: nat, x: U8)
    requires off < buf.Length
    modifies buf
    ensures buf[..off + 1] == old(buf[..off]) + [x]
    ensures forall k :: off + 1 <= k < buf.Length ==> buf[k] == old(buf[k])
  {
    buf[off] := x;
  }

  /** copy(buf[off:], s) where there is room for all of s. */
  method CopyAt(buf: array<U8>, off: nat, s: seq<U8>)
    requires off + |s| <= buf.Length
    modifies buf
    ensures buf[..off + |s|] == old(buf[..off]) + s
    ensures forall k :: off + |s| <= k < buf.Length ==> buf[k] == old(buf[k])
  {
    var i := 0;
    while i < |s|
      invariant 0 <= i <= |s|
      invariant forall k :: 0 <= k < buf.Length ==>
        buf[k] == if off <= k < off + i then s[k - off] else old(buf[k])
    {
      buf[off + i] := s[i];
      i := i + 1;
    }
  }

  lemma {:induction false} ValueOfZeros(n: nat)
    ensures BeValue(Zeros(n)) == 0
  {
    if n > 0 {
      ValueOfZeros(n - 1);
      assert Zeros(n)[..n - 1] == Zeros(n - 1);
    }
  }

  /** A number of one byte is written as zeros and that byte. */
  lemma SmallU64(x: U8)
    ensures PutU64(x) == Zeros(7) + [x]
  {
    var b := Zeros(7) + [x];
    ValueOfZeros(7);
    assert b[..7] == Zeros(7);
    BytesUnique(PutU64(x), b);
  }

  lemma SmallU32(x: U8)
    ensures PutU32(x) == Zeros(3) + [x]
  {
    var b := Zeros(3) + [x];
    ValueOfZeros(3);
    assert b[..3] == Zeros(3);
    BytesUnique(PutU32(x), b);
  }
}
