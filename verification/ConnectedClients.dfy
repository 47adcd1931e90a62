/**
 The gossiped description of a server's clients: its PeerID, a checksum, and a filter
 that answers whether a client is among them.  The filter itself is foreign code; here it
 is its stored fields, and has stands for any membership test computed from them.
 */
module ConnectedClients {
  import opened BigEndian
  import opened Results

  const CC_HEADER := 48

  datatype Filter = Filter(
    seed: U64, segmentLength: U32, segmentLengthMask: U32, segmentCount: U32, segmentCountLength: U32,
    fingerprints: seq<U8>)

  datatype Claim = Claim(peer: U64, crc: U64, f: Filter)

  type Membership = (Filter, U64) -> bool

  /** The first 48 bytes, with the given length field. */
  ghost function Header(c: Claim, length: U64): (b: seq<U8>)
    ensures |b| == CC_HEADER
  {
    PutU64(c.peer) + PutU64(c.crc) + PutU64(c.f.seed)
    + PutU32(c.f.segmentLength) + PutU32(c.f.segmentLengthMask)
    + PutU32(c.f.segmentCount) + PutU32(c.f.segmentCountLength) + PutU64(length)
  }

  ghost function Encode(c: Claim): (b: seq<U8>)
    requires |c.f.fingerprints| <= MAX_LEN
    ensures |b| == CC_HEADER + |c.f.fingerprints|
  {
    Header(c, |c.f.fingerprints|) + c.f.fingerprints
  }

  /** The bytes in full, for small numbers. */
  lemma ClaimImage(peer: U8, crc: U8, seed: U8, l: U8, m: U8, n: U8, cl: U8, x: U8)
    ensures Encode(Claim(peer, crc, Filter(seed, l, m, n, cl, [x])))
            == Zeros(7) + [peer] + Zeros(7) + [crc] + Zeros(7) + [seed]
               + [0, 0, 0, l, 0, 0, 0, m, 0, 0, 0, n, 0, 0, 0, cl, 0, 0, 0, 0, 0, 0, 0, 1, x]
  {
    SmallU64(peer);
    SmallU64(crc);
    SmallU64(seed);
    SmallU32(l);
    SmallU32(m);
    SmallU32(n);
    SmallU32(cl);
    SmallU64(1);
  }

  method MarshalBinary(c: Claim) returns (b: array<U8>)
    requires |c.f.fingerprints| <= MAX_LEN
    ensures fresh(b) && b[..] == Encode(c)
  {
    var fLen := |c.f.fingerprints|;
    b := new U8[CC_HEADER + fLen](_ => 0);
    PutUint64(b, 0, c.peer);
    PutUint64(b, 8, c.crc);
    PutUint64(b, 16, c.f.seed);
    ghost var head := PutU64(c.peer) + PutU64(c.crc) + PutU64(c.f.seed);
    assert b[..24] == head;
    PutSegments(b, c.f);
    PutUint64(b, 40, fLen);
    assert b[..48] == Header(c, fLen);
    CopyAt(b, CC_HEADER, c.f.fingerprints);
    assert b[..] == b[..CC_HEADER + fLen];
  }

  method PutSegments(b: array<U8>, f: Filter)
    requires b.Length >= 40
    modifies b
    ensures b[..40] == old(b[..24]) + PutU32(f.segmentLength) + PutU32(f.segmentLengthMask)
                       + PutU32(f.segmentCount) + PutU32(f.segmentCountLength)
  {
    PutUint32(b, 24, f.segmentLength);
    PutUint32(b, 28, f.segmentLengthMask);
    PutUint32(b, 32, f.segmentCount);
    PutUint32(b, 36, f.segmentCountLength);
  }

  function LengthField(b: seq<U8>): U64
    requires |b| >= CC_HEADER
  {
    GetU64(b[40..48])
  }

  /** Bytes too few for a header are an error; a length of 2^63 or more panics. */
  function Decode(b: seq<U8>): (r: Result<Claim>)
    ensures r.Err? <==> |b| < CC_HEADER
    ensures r.Panic? <==> |b| >= CC_HEADER && GetU64(b[40..48]) > MAX_LEN
    ensures r.Ok? ==> |r.value.f.fingerprints| == GetU64(b[40..48])
  {
    if |b| < CC_HEADER then Err
    else if LengthField(b) > MAX_LEN then Panic  // make: len out of range
    else Ok(Claim(GetU64(b[0..8]), GetU64(b[8..16]),
                  Filter(GetU64(b[16..24]), GetU32(b[24..28]), GetU32(b[28..32]), GetU32(b[32..36]), GetU32(b[36..40]),
                         CopyInto(b[CC_HEADER..], LengthField(b)))))
  }

  lemma HeaderFields(c: Claim, length: U64, rest: seq<U8>)
    ensures var b := Header(c, length) + rest;
      && b[0..8] == PutU64(c.peer) && b[8..16] == PutU64(c.crc) && b[16..24] == PutU64(c.f.seed)
      && b[24..28] == PutU32(c.f.segmentLength) && b[28..32] == PutU32(c.f.segmentLengthMask)
      && b[32..36] == PutU32(c.f.segmentCount) && b[36..40] == PutU32(c.f.segmentCountLength)
      && b[40..48] == PutU64(length) && b[CC_HEADER..] == rest
  {
  }

  lemma DecodeOfEncode(c: Claim)
    requires |c.f.fingerprints| <= MAX_LEN
    ensures Decode(Encode(c)) == Ok(c)
  {
    HeaderFields(c, |c.f.fingerprints|, c.f.fingerprints);
  }

  /** The filter that arrives answers for every client as the one that was sent. */
  lemma HasSurvivesTheWire(has: Membership, c: Claim, client: U64)
    requires |c.f.fingerprints| <= MAX_LEN
    ensures Decode(Encode(c)).Ok? && has(Decode(Encode(c)).value.f, client) == has(c.f, client)
  {
    DecodeOfEncode(c);
  }

  lemma HeaderOfDecoded(b: seq<U8>)
    requires Decode(b).Ok?
    ensures b[..CC_HEADER] == Header(Decode(b).value, LengthField(b))
  {
    assert b[..CC_HEADER] == b[0..8] + b[8..16] + b[16..24] + b[24..28] + b[28..32] + b[32..36] + b[36..40] + b[40..48];
  }

  /** Marshalling again what was decoded gives the same bytes iff the length field is the
      number of bytes after the header. */
  lemma EncodeOfDecodeIff(b: seq<U8>)
    requires Decode(b).Ok?
    ensures Encode(Decode(b).value) == b <==> LengthField(b) == |b| - CC_HEADER
  {
    HeaderOfDecoded(b);
    assert b == b[..CC_HEADER] + b[CC_HEADER..];
  }
}
