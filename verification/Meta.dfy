/**
 The metadata a server gossips about itself, and the periodic reconciliation that dials
 members it has lost.  Reconciliation decodes every member into one reused Meta, and
 decoding sets RespondOnly but never clears it.
 */
module Meta {
  import opened BigEndian
  import opened Cluster
  import opened Results

  const META_SIZE := 26

  /** What parsing the text of an address gives: 16 bytes, or nothing.  Texts that parse
      alike are not told apart. */
  datatype Address = Unparsable | Parsed(bytes: seq<U8>)

  datatype Info = Info(connectIP: Address, connectPort: U64, peerID: U64, protocol: U8, respondOnly: bool)

  type MetaInfo = m: Info | m.connectIP.Parsed? ==> |m.connectIP.bytes| == 16 witness Empty

  /** The empty text is no address. */
  const Empty := Info(Unparsable, 0, 0, 0, false)

  /** The 16 bytes of an IPv4 address begin with these. */
  const V4_PREFIX: seq<U8> := [0, 0, 0, 0, 0, 0, 0, 0, 0, 0, 255, 255]

  function V4(four: seq<U8>): Address
  {
    Parsed(V4_PREFIX + four)
  }

  predicate IsV4(a: Address)
  {
    a.Parsed? && V4_PREFIX <= a.bytes
  }

  ghost function Encode(m: MetaInfo): (b: seq<U8>)
    requires m.connectIP.Parsed?
    ensures |b| == META_SIZE
  {
    m.connectIP.bytes[12..16] + Zeros(4) + PutU64(m.connectPort) + PutU64(m.peerID)
    + [m.protocol] + [if m.respondOnly then 1 else 0]
  }

  /** The 26 bytes in full, for small numbers. */
  lemma MetaImage(a: U8, b: U8, c: U8, d: U8, port: U8, peer: U8, protocol: U8, respondOnly: bool)
    ensures Encode(Info(V4([a, b, c, d]), port, peer, protocol, respondOnly))
            == [a, b, c, d, 0, 0, 0, 0, 0, 0, 0, 0, 0, 0, 0, port, 0, 0, 0, 0, 0, 0, 0, peer, protocol,
                if respondOnly then 1 else 0]
  {
    SmallU64(port);
    SmallU64(peer);
    assert V4([a, b, c, d]).bytes[12..16] == [a, b, c, d];
  }

  /** Slicing the bytes of an address that did not parse panics. */
  ghost function Marshalled(m: MetaInfo): Result<seq<U8>>
  {
    if m.connectIP.Parsed? then Ok(Encode(m)) else Panic
  }

  /** What decoding b leaves in a Meta that held was. */
  function DecodeOver(was: MetaInfo, b: seq<U8>): (m: MetaInfo)
    requires |b| == META_SIZE
  {
    Info(V4(b[0..4]), GetU64(b[8..16]), GetU64(b[16..24]), b[24], was.respondOnly || b[25] == 1)
  }

  lemma DecodeOfEncode(was: MetaInfo, m: MetaInfo)
    requires m.connectIP.Parsed?
    ensures DecodeOver(was, Encode(m))
            == m.(connectIP := V4(m.connectIP.bytes[12..16]), respondOnly := was.respondOnly || m.respondOnly)
  {
    var b := Encode(m);
    assert b[0..4] == m.connectIP.bytes[12..16];
    assert b[8..16] == PutU64(m.connectPort);
    assert b[16..24] == PutU64(m.peerID);
  }

  /** What is gossiped comes back as it was iff the address is an IPv4 one and the receiver's
      RespondOnly was clear or the value's is set.  Of an IPv6 address the last four bytes
      come back as an IPv4 one. */
  lemma RoundTripIff(was: MetaInfo, m: MetaInfo)
    ensures (Marshalled(m).Ok? && DecodeOver(was, Marshalled(m).value) == m)
            <==> IsV4(m.connectIP) && (was.respondOnly ==> m.respondOnly)
  {
    if m.connectIP.Parsed? {
      DecodeOfEncode(was, m);
      assert m.connectIP.bytes == m.connectIP.bytes[..12] + m.connectIP.bytes[12..16];
    }
  }

  /** A server that advertises ::1 is taken for 0.0.0.1. */
  lemma V6ComesBackAsV4() returns (m: MetaInfo)
    ensures m.connectIP == Parsed([0, 0, 0, 0, 0, 0, 0, 0, 0, 0, 0, 0, 0, 0, 0, 1])
    ensures Marshalled(m).Ok? && DecodeOver(Empty, Marshalled(m).value) == m.(connectIP := V4([0, 0, 0, 1]))
    ensures m.connectIP != V4([0, 0, 0, 1])
  {
    m := Info(Parsed([0, 0, 0, 0, 0, 0, 0, 0, 0, 0, 0, 0, 0, 0, 0, 1]), 11111, 1, 1, false);
    DecodeOfEncode(Empty, m);
    assert m.connectIP.bytes[12..16] == [0, 0, 0, 1];
    assert m.connectIP.bytes[10] == 0 && V4([0, 0, 0, 1]).bytes[10] == 255;
  }

  /** The receiver of UnmarshalBinary, updated in place. */
  class Meta {
    var info: MetaInfo

    constructor ()
      ensures info == Empty
    {
      info := Empty;
    }

    method MarshalBinary() returns (r: Result<array<U8>>)
      ensures r.Panic? <==> info.connectIP.Unparsable?
      ensures r.Ok? <==> info.connectIP.Parsed?
      ensures r.Ok? ==> fresh(r.value) && r.value[..] == Encode(info)
    {
      var b := new U8[META_SIZE](_ => 0);
      if info.connectIP.Unparsable? {
        return Panic;
      }
      var ip := info.connectIP.bytes[12..16];
      CopyAt(b, 0, ip);
      assert b[..4] == ip;
      assert b[4..8] == Zeros(4);
      assert b[..8] == ip + Zeros(4);
      PutUint64(b, 8, info.connectPort);
      PutUint64(b, 16, info.peerID);
      PutByte(b, 24, info.protocol);
      if info.respondOnly {
        PutByte(b, 25, 1);
      } else {
        assert b[..26] == b[..25] + [0];
      }
      assert b[..] == b[..26];
      return Ok(b);
    }

    method UnmarshalBinary(b: seq<U8>) returns (ok: bool)
      modifies this
      ensures ok == (|b| == META_SIZE)
      ensures info == if ok then DecodeOver(old(info), b) else old(info)
    {
      if |b| != META_SIZE {
        return false;
      }
      info := info.(connectIP := V4(b[0..4]));
      info := info.(connectPort := GetU64(b[8..16]));
      info := info.(peerID := GetU64(b[16..24]));
      info := info.(protocol := b[24]);
      if b[25] == 1 {
        info := info.(respondOnly := true);
      }
      return true;
    }
  }

  /** A gossip member as reconciliation meets it.  session: whether the peers map holds a
      session with the decoded PeerID at that moment. */
  datatype Node = Node(alive: bool, ourName: bool, meta: seq<U8>, session: bool)

  predicate Decoded(n: Node)
  {
    n.alive && !n.ourName && |n.meta| == META_SIZE
  }

  function NodeID(n: Node): U64
    requires Decoded(n)
  {
    GetU64(n.meta[16..24])
  }

  predicate NodeRespondOnly(n: Node)
    requires Decoded(n)
  {
    n.meta[25] == 1
  }

  /** Some member up to and including i was decoded and is respond-only. */
  ghost predicate RespondOnlySeen(nodes: seq<Node>, i: nat)
    requires i < |nodes|
  {
    exists j :: 0 <= j <= i && Decoded(nodes[j]) && NodeRespondOnly(nodes[j])
  }

  /** Reconciliation dials member i, taking respondOnly for its setting. */
  predicate Dialled(self: U64, selfRespondOnly: bool, n: Node, respondOnly: bool)
  {
    && Decoded(n) && NodeID(n) != self && !n.session
    && ShouldReachOut(self, selfRespondOnly, NodeID(n), respondOnly)
  }

  /** What the loop does: the setting it takes is the disjunction over all members so far. */
  ghost predicate StickyDial(self: U64, selfRespondOnly: bool, nodes: seq<Node>, i: nat)
    requires i < |nodes|
  {
    Dialled(self, selfRespondOnly, nodes[i], RespondOnlySeen(nodes, i))
  }

  /** What a loop decoding into a fresh Meta would do. */
  predicate FreshDial(self: U64, selfRespondOnly: bool, nodes: seq<Node>, i: nat)
    requires i < |nodes|
  {
    Dialled(self, selfRespondOnly, nodes[i], Decoded(nodes[i]) && NodeRespondOnly(nodes[i]))
  }

  /** m is what the reused Meta holds after decoding member i. */
  ghost predicate HeldAt(nodes: seq<Node>, i: nat, m: MetaInfo)
    requires i < |nodes|
  {
    && Decoded(nodes[i])
    && m == DecodeOver(Empty.(respondOnly := RespondOnlySeen(nodes, i)), nodes[i].meta)
  }

  lemma SeenStep(nodes: seq<Node>, i: nat)
    requires i < |nodes|
    ensures RespondOnlySeen(nodes, i) <==>
      (i > 0 && RespondOnlySeen(nodes, i - 1)) || (Decoded(nodes[i]) && NodeRespondOnly(nodes[i]))
  {
  }

  /** dialled holds exactly the members before i that the loop dials. */
  ghost predicate DialledUpTo(
      self: U64, selfRespondOnly: bool, nodes: seq<Node>, i: nat, dialled: map<nat, MetaInfo>)
    requires i <= |nodes|
  {
    && (forall j :: j in dialled ==> j < i && HeldAt(nodes, j, dialled[j]))
    && (forall j :: 0 <= j < i ==> (j in dialled <==> StickyDial(self, selfRespondOnly, nodes, j)))
  }

  lemma DialledStep(
      self: U64, selfRespondOnly: bool, nodes: seq<Node>, i: nat, dialled: map<nat, MetaInfo>, dial: bool, m: MetaInfo)
    requires i < |nodes| && DialledUpTo(self, selfRespondOnly, nodes, i, dialled)
    requires dial == StickyDial(self, selfRespondOnly, nodes, i)
    requires dial ==> HeldAt(nodes, i, m)
    ensures DialledUpTo(self, selfRespondOnly, nodes, i + 1, if dial then dialled[i := m] else dialled)
  {
  }

  /** peerReconciliation: the positions of the members it dials and the metadata it dials with. */
  method PeerReconciliation(self: U64, selfRespondOnly: bool, nodes: seq<Node>) returns (dialled: map<nat, MetaInfo>)
    ensures forall i :: i in dialled ==> i < |nodes| && HeldAt(nodes, i, dialled[i])
    ensures forall i :: 0 <= i < |nodes| ==> (i in dialled <==> StickyDial(self, selfRespondOnly, nodes, i))
    ensures forall i :: i in dialled ==>
      && i < |nodes| && nodes[i].alive && !nodes[i].ourName && !nodes[i].session
      && |nodes[i].meta| == META_SIZE && GetU64(nodes[i].meta[16..24]) == dialled[i].peerID != self
  {
    var m := new Meta();
    dialled := map[];
    var i := 0;
    while i < |nodes|
      invariant 0 <= i <= |nodes|
      invariant m.info.respondOnly <==> i > 0 && RespondOnlySeen(nodes, i - 1)
      invariant DialledUpTo(self, selfRespondOnly, nodes, i, dialled)
    {
      var dial := ReconcileNode(self, selfRespondOnly, nodes, i, m);
      DialledStep(self, selfRespondOnly, nodes, i, dialled, dial, m.info);
      if dial {
        dialled := dialled[i := m.info];
      }
      i := i + 1;
    }
  }

  /** The body of the loop: decode member i into m and decide. */
  method ReconcileNode(self: U64, selfRespondOnly: bool, nodes: seq<Node>, i: nat, m: Meta) returns (dial: bool)
    requires i < |nodes|
    requires m.info.respondOnly <==> i > 0 && RespondOnlySeen(nodes, i - 1)
    modifies m
    ensures m.info.respondOnly <==> RespondOnlySeen(nodes, i)
    ensures dial == StickyDial(self, selfRespondOnly, nodes, i)
    ensures dial ==> HeldAt(nodes, i, m.info)
  {
    SeenStep(nodes, i);
    var node := nodes[i];
    if !node.alive || node.ourName {
      return false;
    }
    var ok := m.UnmarshalBinary(node.meta);
    if !ok || m.info.peerID == self {
      return false;
    }
    return !node.session && ShouldReachOut(self, selfRespondOnly, m.info.peerID, m.info.respondOnly);
  }

  /** A member with no session, a lower PeerID and RespondOnly off, met after a
      respond-only one by a server that dials. */
  ghost predicate Misread(self: U64, selfRespondOnly: bool, nodes: seq<Node>, i: nat)
    requires i < |nodes|
  {
    && !selfRespondOnly && Decoded(nodes[i]) && !nodes[i].session
    && NodeID(nodes[i]) < self && !NodeRespondOnly(nodes[i])
    && exists j :: 0 <= j < i && Decoded(nodes[j]) && NodeRespondOnly(nodes[j])
  }

  /** The loop dials every member a fresh decode would dial, and the others it dials are
      exactly the misread ones. */
  lemma StickyVersusFresh(self: U64, selfRespondOnly: bool, nodes: seq<Node>, i: nat)
    requires i < |nodes|
    ensures FreshDial(self, selfRespondOnly, nodes, i) ==> StickyDial(self, selfRespondOnly, nodes, i)
    ensures StickyDial(self, selfRespondOnly, nodes, i) && !FreshDial(self, selfRespondOnly, nodes, i)
            <==> Misread(self, selfRespondOnly, nodes, i)
  {
    if Decoded(nodes[i]) && NodeRespondOnly(nodes[i]) {
      assert RespondOnlySeen(nodes, i);
    }
    if Misread(self, selfRespondOnly, nodes, i) {
      var j :| 0 <= j < i && Decoded(nodes[j]) && NodeRespondOnly(nodes[j]);
      assert RespondOnlySeen(nodes, i);
    }
    if RespondOnlySeen(nodes, i) && Decoded(nodes[i]) && !NodeRespondOnly(nodes[i]) {
      var j :| 0 <= j <= i && Decoded(nodes[j]) && NodeRespondOnly(nodes[j]);
      assert j < i;
    }
  }

  /** Both loops dial the same members iff none is misread. */
  lemma SameDialsIff(self: U64, selfRespondOnly: bool, nodes: seq<Node>)
    ensures (forall i :: 0 <= i < |nodes| ==>
               (StickyDial(self, selfRespondOnly, nodes, i) <==> FreshDial(self, selfRespondOnly, nodes, i)))
            <==> (forall i :: 0 <= i < |nodes| ==> !Misread(self, selfRespondOnly, nodes, i))
  {
    forall i | 0 <= i < |nodes|
      ensures (StickyDial(self, selfRespondOnly, nodes, i) <==> FreshDial(self, selfRespondOnly, nodes, i))
              <==> !Misread(self, selfRespondOnly, nodes, i)
    {
      StickyVersusFresh(self, selfRespondOnly, nodes, i);
    }
  }

  /** A misread member dials back: it is a pair in which both sides dial, which the dial
      rule alone excludes. */
  lemma MisreadMeansBothDial(self: U64, nodes: seq<Node>, i: nat)
    requires i < |nodes| && Misread(self, false, nodes, i)
    ensures StickyDial(self, false, nodes, i)
    ensures ShouldReachOut(NodeID(nodes[i]), NodeRespondOnly(nodes[i]), self, false)
  {
    StickyVersusFresh(self, false, nodes, i);
  }

  lemma NodeOfEncode(m: MetaInfo)
    requires m.connectIP.Parsed?
    ensures var n := Node(true, false, Encode(m), false);
      Decoded(n) && NodeID(n) == m.peerID && NodeRespondOnly(n) == m.respondOnly
  {
    assert Encode(m)[16..24] == PutU64(m.peerID);
  }

  /** It happens: server 5 meets a respond-only member 9 and then member 1, which is not,
      and both 5 and 1 dial. */
  lemma MisreadHappens() returns (nodes: seq<Node>)
    ensures |nodes| == 2 && Misread(5, false, nodes, 1)
    ensures StickyDial(5, false, nodes, 1) && !FreshDial(5, false, nodes, 1)
    ensures NodeID(nodes[1]) == 1 && ShouldReachOut(1, NodeRespondOnly(nodes[1]), 5, false)
  {
    var nine, one := Info(V4([10, 0, 0, 9]), 11111, 9, 1, true), Info(V4([10, 0, 0, 1]), 11111, 1, 1, false);
    NodeOfEncode(nine);
    NodeOfEncode(one);
    nodes := [Node(true, false, Encode(nine), false), Node(true, false, Encode(one), false)];
    assert Decoded(nodes[0]) && NodeRespondOnly(nodes[0]);
    StickyVersusFresh(5, false, nodes, 1);
  }
}
