/**
 The 18-byte link header that opens every stream, the handshakes that exchange it, and
 what becomes of it when servers pass a stream on.  The all-zero link is reserved: a
 stream that opens with it is taken for the messaging stream between two servers.
 */
module Links {
  import opened BigEndian
  import opened Results

  const LINK_SIZE := 18

  const ALPN_UNKNOWN: U8 := 0
  const ALPN_MULTIPLEXER: U8 := 1
  const ALPN_HTTP: U8 := 2
  const ALPN_RAW: U8 := 3

  const PROTOCOL_UNKNOWN: U8 := 0

  datatype Link = Link(source: U64, destination: U64, protocol: U8, alpn: U8)

  const MessagingLink := Link(0, 0, 0, 0)

  ghost function EncodeLink(l: Link): (b: seq<U8>)
    ensures |b| == LINK_SIZE
  {
    PutU64(l.source) + PutU64(l.destination) + [l.protocol, l.alpn]
  }

  function DecodeLink(b: seq<U8>): (r: Result<Link>)
    ensures r.Ok? <==> |b| == LINK_SIZE
    ensures !r.Panic?
  {
    if |b| != LINK_SIZE then Err
    else Ok(Link(GetU64(b[0..8]), GetU64(b[8..16]), b[16], b[17]))
  }

  /** The codec is a bijection between links and 18-byte strings. */
  lemma LinkBijection(l: Link, b: seq<U8>)
    ensures DecodeLink(EncodeLink(l)) == Ok(l)
    ensures |b| == LINK_SIZE ==> EncodeLink(DecodeLink(b).value) == b
  {
    assert EncodeLink(l)[0..8] == PutU64(l.source);
    assert EncodeLink(l)[8..16] == PutU64(l.destination);
    if |b| == LINK_SIZE {
      assert b == b[0..8] + b[8..16] + [b[16], b[17]];
    }
  }

  /** The 18 bytes in full, for a link of small numbers. */
  lemma LinkImage(source: U8, destination: U8, protocol: U8, alpn: U8)
    ensures EncodeLink(Link(source, destination, protocol, alpn))
            == [0, 0, 0, 0, 0, 0, 0, source, 0, 0, 0, 0, 0, 0, 0, destination, protocol, alpn]
  {
    SmallU64(source);
    SmallU64(destination);
  }

  lemma Injective(k: Link, l: Link)
    requires EncodeLink(k) == EncodeLink(l)
    ensures k == l
  {
    LinkBijection(k, EncodeLink(l));
    LinkBijection(l, EncodeLink(l));
  }

  method MarshalBinary(l: Link) returns (b: array<U8>)
    ensures fresh(b) && b[..] == EncodeLink(l)
  {
    b := new U8[LINK_SIZE](_ => 0);
    PutUint64(b, 0, l.source);
    PutUint64(b, 8, l.destination);
    PutByte(b, 16, l.protocol);
    PutByte(b, 17, l.alpn);
    assert b[..] == b[..18];
  }

  /** Only one link is encoded as b. */
  lemma DecodesAlone(b: seq<U8>)
    ensures forall l: Link :: EncodeLink(l) == b ==> DecodeLink(b) == Ok(l)
  {
    forall l: Link | EncodeLink(l) == b
      ensures DecodeLink(b) == Ok(l)
    {
      LinkBijection(l, b);
    }
  }

  // ---- accepting a session ----

  /** conn.Read into a fresh buffer: got arrived, the rest stays zero. */
  method ReadHandshake(got: seq<U8>) returns (r: array<U8>)
    requires |got| <= LINK_SIZE
    ensures fresh(r) && r[..] == CopyInto(got, LINK_SIZE)
  {
    r := new U8[LINK_SIZE](_ => 0);
    CopyAt(r, 0, got);
  }

  /** The search for the link's protocol among the acceptable ones. */
  method ValidProtocol(p: U8, acceptable: seq<U8>) returns (valid: bool)
    ensures valid == (p in acceptable)
  {
    valid := false;
    var i := 0;
    while i < |acceptable|
      invariant 0 <= i <= |acceptable|
      invariant !valid && p !in acceptable[..i]
    {
      if acceptable[i] == p {
        valid := true;
        break;
      }
      i := i + 1;
    }
  }

  /** The link offers the multiplexer over a protocol that is allowed here and built in. */
  predicate Offers(l: Link, acceptable: seq<U8>, builtin: set<U8>)
  {
    && l.alpn == ALPN_MULTIPLEXER
    && l.protocol in acceptable
    && l.protocol in builtin && l.protocol != PROTOCOL_UNKNOWN
  }

  /** What a peer must send for its session to be accepted. */
  predicate PeerAccepted(self: U64, got: seq<U8>, acceptable: seq<U8>, builtin: set<U8>)
  {
    && |got| == LINK_SIZE
    && var l := DecodeLink(got).value;
       && Offers(l, acceptable, builtin)
       && l.source != 0 && l.source != self && l.destination == self && self != 0
  }

  /** What a client must send to be given an identity. */
  predicate ClientAccepted(got: seq<U8>, acceptable: seq<U8>, builtin: set<U8>)
  {
    && |got| == LINK_SIZE
    && var l := DecodeLink(got).value;
       Offers(l, acceptable, builtin) && l.source == 0 && l.destination == 0
  }

  /** peerNegotiation.  Whatever arrives and however the read is cut, a session is accepted
      only on a complete header, and the accepted link re-encodes to the bytes read. */
  method PeerNegotiation(self: U64, got: seq<U8>, readErr: bool, acceptable: seq<U8>, builtin: set<U8>)
    returns (r: Result<Link>)
    requires |got| <= LINK_SIZE
    ensures r.Ok? ==> |got| == LINK_SIZE && EncodeLink(r.value) == got
    ensures r.Ok? <==> !readErr && PeerAccepted(self, got, acceptable, builtin)
    ensures r.Ok? ==>
      && r.value.source != 0 && r.value.source != self && r.value.destination == self
      && r.value.protocol in acceptable && r.value.protocol in builtin && r.value.protocol != PROTOCOL_UNKNOWN
      && r.value.alpn == ALPN_MULTIPLEXER
    ensures forall source, protocol: U8 ::
      && !readErr && got == EncodeLink(Link(source, self, protocol, ALPN_MULTIPLEXER))
      && source != 0 && source != self && self != 0
      && protocol in acceptable && protocol in builtin && protocol != PROTOCOL_UNKNOWN
      ==> r.Ok?
    ensures !r.Panic?
  {
    if readErr {
      return Err;
    }
    var buf := ReadHandshake(got);
    var decoded := DecodeLink(buf[..]);
    var link := decoded.value;
    assert link.alpn == CopyInto(got, LINK_SIZE)[17];
    DecodesAlone(got);
    if link.alpn != ALPN_MULTIPLEXER {
      return Err;
    }
    var valid := ValidProtocol(link.protocol, acceptable);
    if !valid || link.protocol !in builtin || link.protocol == PROTOCOL_UNKNOWN {
      return Err;
    }
    LinkBijection(link, got);
    if (link.source == 0 || link.destination == 0) || link.source == link.destination
       || link.destination != self || link.source == self {
      return Err;
    }
    return decoded;
  }

  /** clientNegotiation up to registering the session.  clientID is the hash of the
      hostname drawn for the client; written, writeErr and nameErr are how the reply and
      the hostname were received by the connection. */
  method ClientNegotiation(
      self: U64, got: seq<U8>, readErr: bool, acceptable: seq<U8>, builtin: set<U8>,
      clientID: U64, written: nat, writeErr: bool, nameErr: bool)
    returns (r: Result<Link>, reply: seq<U8>)
    requires |got| <= LINK_SIZE
    ensures reply != [] <==> !readErr && ClientAccepted(got, acceptable, builtin)
    ensures reply != [] <==> !readErr && exists protocol: U8 ::
      && got == EncodeLink(Link(0, 0, protocol, ALPN_MULTIPLEXER))
      && protocol in acceptable && protocol in builtin && protocol != PROTOCOL_UNKNOWN
    ensures reply != [] ==>
      DecodeLink(reply) == Ok(DecodeLink(got).value.(source := clientID, destination := self))
    ensures r.Ok? <==> reply != [] && !writeErr && written == LINK_SIZE && !nameErr
    ensures r.Ok? ==> EncodeLink(r.value) == reply && EncodeLink(r.value.(source := 0, destination := 0)) == got
    ensures !r.Panic?
  {
    r, reply := Err, [];
    if readErr {
      return;
    }
    var buf := ReadHandshake(got);
    var link := DecodeLink(buf[..]).value;
    assert link.alpn == CopyInto(got, LINK_SIZE)[17];
    DecodesAlone(got);
    if link.alpn != ALPN_MULTIPLEXER {
      return;
    }
    var valid := ValidProtocol(link.protocol, acceptable);
    if !valid || link.protocol !in builtin || link.protocol == PROTOCOL_UNKNOWN {
      return;
    }
    if link.source != 0 || link.destination != 0 {
      return;
    }
    LinkBijection(link, got);
    ghost var offered := link;
    link := link.(source := clientID, destination := self);
    LinkBijection(link, got);
    assert link.(source := 0, destination := 0) == offered;
    var w := MarshalBinary(link);
    reply := w[..];
    if !writeErr && written == LINK_SIZE && !nameErr {
      r := Ok(link);
    }
  }

  // ---- passing a stream on ----

  type ReadLength = n: nat | n <= LINK_SIZE

  /** The link a server takes from a stream whose opener wrote l, when its one Read
      returns n bytes.  The length is not checked. */
  ghost function Received(l: Link, n: ReadLength): (r: Link)
  {
    DecodeLink(CopyInto(EncodeLink(l)[..n], LINK_SIZE)).value
  }

  /** The link at the end of a path on which the servers' reads return these lengths. */
  ghost function Forwarded(l: Link, cuts: seq<ReadLength>): (r: Link)
    decreases |cuts|
  {
    if cuts == [] then l else Forwarded(Received(l, cuts[0]), cuts[1..])
  }

  function Shortest(cuts: seq<ReadLength>): (n: ReadLength)
  {
    if cuts == [] then LINK_SIZE
    else if cuts[0] < Shortest(cuts[1..]) then cuts[0] else Shortest(cuts[1..])
  }

  /** A path delivers the bytes up to its shortest read, and zeros after them. */
  lemma {:induction false} ForwardedBytes(l: Link, cuts: seq<ReadLength>)
    ensures EncodeLink(Forwarded(l, cuts)) == CopyInto(EncodeLink(l)[..Shortest(cuts)], LINK_SIZE)
    decreases |cuts|
  {
    if cuts != [] {
      var mid := Received(l, cuts[0]);
      ForwardedBytes(mid, cuts[1..]);
      LinkBijection(mid, CopyInto(EncodeLink(l)[..cuts[0]], LINK_SIZE));
    }
  }

  /** Full reads keep the link, over any number of hops. */
  lemma {:induction false} FullReadsKeepLink(l: Link, cuts: seq<ReadLength>)
    requires Shortest(cuts) == LINK_SIZE
    ensures Forwarded(l, cuts) == l
  {
    ForwardedBytes(l, cuts);
    Injective(Forwarded(l, cuts), l);
  }

  /** A forwarded link is mistaken for the messaging link iff everything the shortest
      read let through is zero. */
  lemma {:induction false} MistakenIff(l: Link, cuts: seq<ReadLength>)
    ensures Forwarded(l, cuts) == MessagingLink
            <==> forall i :: 0 <= i < Shortest(cuts) ==> EncodeLink(l)[i] == 0
  {
    ForwardedBytes(l, cuts);
    MessagingBytes();
    var f := Forwarded(l, cuts);
    if forall i :: 0 <= i < Shortest(cuts) ==> EncodeLink(l)[i] == 0 {
      assert EncodeLink(f) == Zeros(LINK_SIZE);
      Injective(f, MessagingLink);
    } else {
      var i :| 0 <= i < Shortest(cuts) && EncodeLink(l)[i] != 0;
      assert EncodeLink(f)[i] != 0;
    }
  }

  lemma MessagingBytes()
    ensures EncodeLink(MessagingLink) == Zeros(LINK_SIZE)
  {
    SmallU64(0);
  }

  // ---- links built by a gateway ----

  function FirstLabel(sni: string): (first: string)
  {
    if sni == "" || sni[0] == '.' then "" else [sni[0]] + FirstLabel(sni[1..])
  }

  /** alpn.ReverseMap: a name it does not hold gives the zero value. */
  function AlpnOf(name: string): U8
  {
    if name == "multiplexer" then ALPN_MULTIPLEXER
    else if name == "http/1.1" then ALPN_HTTP
    else if name == "raw" then ALPN_RAW
    else ALPN_UNKNOWN
  }

  function GatewayLink(self: U64, hash: string -> U64, sni: string, proto: string): (l: Link)
  {
    Link(self, hash(FirstLabel(sni)), PROTOCOL_UNKNOWN, AlpnOf(proto))
  }

  lemma {:induction false} FirstLabelOf(first: string, rest: string)
    requires '.' !in first
    ensures FirstLabel(first) == first && FirstLabel(first + "." + rest) == first
  {
    if first != "" {
      FirstLabelOf(first[1..], rest);
      assert (first + "." + rest)[1..] == first[1..] + "." + rest;
    }
  }

  /** A request for a host goes from the gateway's server to the client whose name is the
      host's first label, with the protocol the request was made in. */
  lemma GatewayAddresses(self: U64, hash: string -> U64, first: string, rest: string)
    requires '.' !in first
    ensures GatewayLink(self, hash, first + "." + rest, "http/1.1")
            == Link(self, hash(first), PROTOCOL_UNKNOWN, ALPN_HTTP)
    ensures GatewayLink(self, hash, first, "raw") == Link(self, hash(first), PROTOCOL_UNKNOWN, ALPN_RAW)
    ensures GatewayLink(self, hash, first, "multiplexer").alpn == ALPN_MULTIPLEXER
    ensures GatewayLink(self, hash, first, "h2").alpn == ALPN_UNKNOWN
  {
    FirstLabelOf(first, rest);
  }

  /** No tunnel of a server with a non-zero PeerID is mistaken for the messaging stream,
      over any number of hops, as long as every read returns at least the source.  With a
      shorter read it can be: exactly when the source's leading bytes read are zero. */
  lemma {:induction false} TunnelNeverMessaging(
      self: U64, hash: string -> U64, sni: string, proto: string, cuts: seq<ReadLength>)
    requires self != 0
    ensures Shortest(cuts) >= 8 ==> Forwarded(GatewayLink(self, hash, sni, proto), cuts) != MessagingLink
    ensures Shortest(cuts) < 8 ==>
      (Forwarded(GatewayLink(self, hash, sni, proto), cuts) == MessagingLink
       <==> forall i :: 0 <= i < Shortest(cuts) ==> PutU64(self)[i] == 0)
  {
    var l := GatewayLink(self, hash, sni, proto);
    MistakenIff(l, cuts);
    assert EncodeLink(l)[..8] == PutU64(self);
    assert forall i :: 0 <= i < 8 ==> EncodeLink(l)[i] == PutU64(self)[i];
    if Shortest(cuts) >= 8 && Forwarded(l, cuts) == MessagingLink {
      assert PutU64(self) == Zeros(8);
      ValueOfZeros(8);
    }
  }

  /** The short-read case happens: server 1, one hop, seven bytes. */
  lemma ShortReadMistaken(hash: string -> U64)
    ensures Forwarded(GatewayLink(1, hash, "a.b", "raw"), [7]) == MessagingLink
  {
    TunnelNeverMessaging(1, hash, "a.b", "raw", [7]);
    SmallU64(1);
    assert Shortest([7]) == 7 by {
      assert Shortest([7][1..]) == LINK_SIZE;
    }
  }
}
