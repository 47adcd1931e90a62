/**
 Messages between servers: their frame on the wire, the request/reply payload packed
 inside, and the reader that takes frames off a connection whose Read calls may return
 any number of bytes or fail.
 */
module Messages {
  import opened BigEndian
  import opened Results

  const HEADER_LENGTH := 24
  const RR_HEADER_LENGTH := 17

  const MESSAGE_REQUEST_REPLY: I64 := 4

  type I64 = x: int | -0x8000_0000_0000_0000 <= x < 0x8000_0000_0000_0000

  /** The contents of a Go byte slice. */
  type Bytes = s: seq<U8> | |s| <= MAX_LEN witness []

  function ToU64(x: I64): (u: U64)
    ensures ToI64(u) == x
  {
    if x < 0 then x + 0x1_0000_0000_0000_0000 else x
  }

  function ToI64(u: U64): (x: I64)
  {
    if u >= 0x8000_0000_0000_0000 then u - 0x1_0000_0000_0000_0000 else u
  }

  datatype Message = Message(kind: I64, from: U64, data: Bytes)

  ghost function Encode(m: Message): (b: seq<U8>)
    ensures |b| == HEADER_LENGTH + |m.data|
  {
    PutU64(|m.data|) + PutU64(ToU64(m.kind)) + PutU64(m.from) + m.data
  }

  method MarshalBinary(m: Message) returns (buf: array<U8>)
    ensures fresh(buf) && buf[..] == Encode(m)
  {
    buf := new U8[HEADER_LENGTH + |m.data|](_ => 0);
    PutUint64(buf, 0, |m.data|);
    PutUint64(buf, 8, ToU64(m.kind));
    PutUint64(buf, 16, m.from);
    CopyAt(buf, HEADER_LENGTH, m.data);
    assert buf[..] == buf[..HEADER_LENGTH + |m.data|];
  }

  /** The frame in full, for small numbers. */
  lemma FrameImage(kind: U8, from: U8, x: U8)
    ensures Encode(Message(kind, from, [x]))
            == [0, 0, 0, 0, 0, 0, 0, 1, 0, 0, 0, 0, 0, 0, 0, kind, 0, 0, 0, 0, 0, 0, 0, from, x]
  {
    SmallU64(1);
    SmallU64(kind);
    SmallU64(from);
  }

  ghost function EncodeAll(ms: seq<Message>): seq<U8>
  {
    if ms == [] then [] else Encode(ms[0]) + EncodeAll(ms[1..])
  }

  lemma {:induction false} EncodeAllSnoc(ms: seq<Message>, m: Message)
    ensures EncodeAll(ms + [m]) == EncodeAll(ms) + Encode(m)
  {
    if ms == [] {
      assert [] + [m] == [m] && [m][1..] == [];
    } else {
      var head, tail := Encode(ms[0]), EncodeAll(ms[1..]);
      EncodeAllSnoc(ms[1..], m);
      assert (ms + [m])[1..] == ms[1..] + [m];
      assert head + (tail + Encode(m)) == (head + tail) + Encode(m);
    }
  }

  // ---- reading from a connection ----

  /** One Read call: up to n bytes, with or without an error. */
  datatype Outcome = Outcome(n: nat, err: bool)

  function Min(a: nat, b: nat): nat
  {
    if a < b then a else b
  }

  /** How many bytes a Read for want bytes returns when stream is left. */
  function Delivered(stream: seq<U8>, script: seq<Outcome>, want: nat): (k: nat)
    ensures k <= want && k <= |stream|
  {
    if script == [] then 0 else Min(script[0].n, Min(want, |stream|))
  }

  /** A connection that runs out of script is closed. */
  predicate Failed(script: seq<Outcome>)
  {
    script == [] || script[0].err
  }

  function Rest(script: seq<Outcome>): seq<Outcome>
  {
    if script == [] then [] else script[1..]
  }

  datatype Frame = Got(m: Message) | Stopped | Panicked

  /** ReadFrom: the header in one Read, then the data in another. */
  function ReadFrame(stream: seq<U8>, script: seq<Outcome>): (f: Frame)
    ensures f.Got? ==> |script| >= 2 && |stream| >= HEADER_LENGTH + |f.m.data|
  {
    var l := Delivered(stream, script, HEADER_LENGTH);
    if Failed(script) || l != HEADER_LENGTH then Stopped
    else
      var dl := GetU64(stream[0..8]);
      if dl > MAX_LEN then Panicked  // make with a negative length
      else
        var l' := Delivered(stream[HEADER_LENGTH..], script[1..], dl);
        if Failed(script[1..]) || l' != dl then Stopped
        else Got(Message(ToI64(GetU64(stream[8..16])), GetU64(stream[16..HEADER_LENGTH]),
                         stream[HEADER_LENGTH..HEADER_LENGTH + dl]))
  }

  /** The messages the reader takes before it stops. */
  function ReadAll(stream: seq<U8>, script: seq<Outcome>): (ms: seq<Message>)
    decreases |script|
  {
    var f := ReadFrame(stream, script);
    if !f.Got? then []
    else [f.m] + ReadAll(stream[HEADER_LENGTH + |f.m.data|..], script[2..])
  }

  predicate Panics(stream: seq<U8>, script: seq<Outcome>)
    decreases |script|
  {
    var f := ReadFrame(stream, script);
    if f.Got? then Panics(stream[HEADER_LENGTH + |f.m.data|..], script[2..]) else f.Panicked?
  }

  /** A connection being read. */
  class Conn {
    var stream: seq<U8>
    var script: seq<Outcome>

    constructor (stream: seq<U8>, script: seq<Outcome>)
      ensures this.stream == stream && this.script == script
    {
      this.stream, this.script := stream, script;
    }

    method Read(want: nat) returns (got: seq<U8>, err: bool)
      modifies this
      ensures got == old(stream[..Delivered(stream, script, want)])
      ensures err == Failed(old(script))
      ensures stream == old(stream)[|got|..] && script == Rest(old(script))
    {
      var k := Delivered(stream, script, want);
      got, err := stream[..k], Failed(script);
      stream, script := stream[k..], Rest(script);
    }
  }

  method ReadFrom(conn: Conn) returns (f: Frame)
    modifies conn
    ensures f == ReadFrame(old(conn.stream), old(conn.script))
    ensures f.Got? ==>
      conn.stream == old(conn.stream)[HEADER_LENGTH + |f.m.data|..] && conn.script == old(conn.script)[2..]
  {
    ghost var stream := conn.stream;
    var head, err := conn.Read(HEADER_LENGTH);
    if err || |head| != HEADER_LENGTH {
      return Stopped;
    }
    var kind := ToI64(GetU64(head[8..16]));
    var from := GetU64(head[16..HEADER_LENGTH]);
    var dl := GetU64(head[0..8]);
    assert head[0..8] == stream[0..8] && head[8..16] == stream[8..16];
    assert head[16..HEADER_LENGTH] == stream[16..HEADER_LENGTH];
    if dl > MAX_LEN {
      return Panicked;
    }
    var data, err' := conn.Read(dl);
    if err' || |data| != dl {
      return Stopped;
    }
    assert data == stream[HEADER_LENGTH..HEADER_LENGTH + dl];
    return Got(Message(kind, from, data));
  }

  /** The reader's loop. */
  method Reader(conn: Conn) returns (ms: seq<Message>, panicked: bool)
    modifies conn
    ensures ms == ReadAll(old(conn.stream), old(conn.script))
    ensures panicked == Panics(old(conn.stream), old(conn.script))
  {
    ms := [];
    while true
      invariant ReadAll(old(conn.stream), old(conn.script)) == ms + ReadAll(conn.stream, conn.script)
      invariant Panics(old(conn.stream), old(conn.script)) == Panics(conn.stream, conn.script)
      decreases |conn.script|
    {
      ghost var rest := ReadAll(conn.stream, conn.script);
      var f := ReadFrom(conn);
      if !f.Got? {
        return ms, f.Panicked?;
      }
      assert rest == [f.m] + ReadAll(conn.stream, conn.script);
      ms := ms + [f.m];
    }
  }

  /** A header that gives a length of 2^63 or more makes the reader panic. */
  lemma HugeLengthPanics(stream: seq<U8>, script: seq<Outcome>)
    requires |stream| >= HEADER_LENGTH && GetU64(stream[0..8]) > MAX_LEN
    requires script != [] && !script[0].err && script[0].n >= HEADER_LENGTH
    ensures Panics(stream, script) && ReadAll(stream, script) == []
  {
  }

  // ---- what the reader gets of what was sent ----

  lemma FrameFields(m: Message, rest: seq<U8>)
    ensures var b := Encode(m) + rest;
      && b[0..8] == PutU64(|m.data|) && b[8..16] == PutU64(ToU64(m.kind)) && b[16..HEADER_LENGTH] == PutU64(m.from)
      && b[HEADER_LENGTH..HEADER_LENGTH + |m.data|] == m.data && b[HEADER_LENGTH + |m.data|..] == rest
  {
  }

  lemma SameSlice(short: seq<U8>, long: seq<U8>, i: nat, j: nat)
    requires short <= long && i <= j <= |short|
    ensures short[i..j] == long[i..j]
  {
  }

  /** The stream holds the start of what was sent, cut anywhere; then a frame read from it
      is the first message sent. */
  lemma FirstFrame(ms: seq<Message>, stream: seq<U8>, script: seq<Outcome>)
    requires stream <= EncodeAll(ms)
    ensures var f := ReadFrame(stream, script);
      && !f.Panicked?
      && (f.Got? ==> ms != [] && f.m == ms[0] && stream[HEADER_LENGTH + |f.m.data|..] <= EncodeAll(ms[1..]))
  {
    if ms != [] && |stream| >= HEADER_LENGTH {
      var all := EncodeAll(ms);
      FrameFields(ms[0], EncodeAll(ms[1..]));
      SameSlice(stream, all, 0, 8);
      SameSlice(stream, all, 8, 16);
      SameSlice(stream, all, 16, HEADER_LENGTH);
      var end := HEADER_LENGTH + |ms[0].data|;
      if |stream| >= end {
        SameSlice(stream, all, HEADER_LENGTH, end);
        SameSlice(stream, all, end, |stream|);
      }
    }
  }

  /** However the stream is cut and however its reads split or fail, the reader delivers
      a prefix of the messages sent, whole and in order, and does not panic. */
  lemma {:induction false} ReaderGetsPrefix(ms: seq<Message>, stream: seq<U8>, script: seq<Outcome>)
    requires stream <= EncodeAll(ms)
    ensures ReadAll(stream, script) <= ms
    ensures !Panics(stream, script)
    decreases |script|
  {
    FirstFrame(ms, stream, script);
    var f := ReadFrame(stream, script);
    if f.Got? {
      ReaderGetsPrefix(ms[1..], stream[HEADER_LENGTH + |f.m.data|..], script[2..]);
      assert ms == [ms[0]] + ms[1..];
    }
  }

  /** Every read for ms returns all the bytes it asked for, without an error. */
  predicate Filled(ms: seq<Message>, script: seq<Outcome>)
  {
    ms == [] ||
    (&& |script| >= 2
     && !script[0].err && script[0].n >= HEADER_LENGTH
     && !script[1].err && script[1].n >= |ms[0].data|
     && Filled(ms[1..], script[2..]))
  }

  lemma FirstFrameIff(ms: seq<Message>, script: seq<Outcome>)
    requires ms != []
    ensures ReadFrame(EncodeAll(ms), script).Got? <==>
      && |script| >= 2
      && !script[0].err && script[0].n >= HEADER_LENGTH
      && !script[1].err && script[1].n >= |ms[0].data|
    ensures EncodeAll(ms)[HEADER_LENGTH + |ms[0].data|..] == EncodeAll(ms[1..])
  {
    var b := Encode(ms[0]);
    var all := b + EncodeAll(ms[1..]);
    assert all[0..8] == b[0..8] == PutU64(|ms[0].data|);
    assert all[|b|..] == EncodeAll(ms[1..]);
  }

  lemma {:induction false} ReadAllStep(ms: seq<Message>, script: seq<Outcome>)
    requires ms != []
    ensures ReadAll(EncodeAll(ms), script) ==
      if ReadFrame(EncodeAll(ms), script).Got?
      then [ms[0]] + ReadAll(EncodeAll(ms[1..]), script[2..])
      else []
  {
    FirstFrame(ms, EncodeAll(ms), script);
    FirstFrameIff(ms, script);
  }

  /** The reader delivers all messages sent iff every read was filled. */
  lemma {:induction false} ReaderGetsAllIff(ms: seq<Message>, script: seq<Outcome>)
    ensures ReadAll(EncodeAll(ms), script) == ms <==> Filled(ms, script)
    decreases |ms|
  {
    if ms == [] {
      FirstFrame(ms, EncodeAll(ms), script);
    } else {
      ReadAllStep(ms, script);
      FirstFrameIff(ms, script);
      if ReadFrame(EncodeAll(ms), script).Got? {
        ReaderGetsAllIff(ms[1..], script[2..]);
        ConsEqual(ms[0], ReadAll(EncodeAll(ms[1..]), script[2..]), ms);
      }
    }
  }

  lemma ConsEqual(m: Message, rest: seq<Message>, ms: seq<Message>)
    requires ms != [] && ms[0] == m
    ensures [m] + rest == ms <==> rest == ms[1..]
  {
    if [m] + rest == ms {
      assert rest == ([m] + rest)[1..];
    }
  }

  // ---- the request/reply payload ----

  /** request tells a request from a reply; key pairs the two. */
  datatype RequestReply = RequestReply(request: bool, key: U64, data: Bytes)

  ghost function Pack(r: RequestReply): (b: seq<U8>)
    ensures |b| == RR_HEADER_LENGTH + |r.data|
  {
    PutU64(|r.data|) + PutU64(r.key) + [if r.request then 1 else 0] + r.data
  }

  method PackInto(r: RequestReply) returns (buf: array<U8>)
    ensures fresh(buf) && buf[..] == Pack(r)
  {
    buf := new U8[RR_HEADER_LENGTH + |r.data|](_ => 0);
    PutUint64(buf, 0, |r.data|);
    PutUint64(buf, 8, r.key);
    if r.request {
      PutByte(buf, 16, 1);
    } else {
      assert buf[..17] == buf[..16] + [0];
    }
    CopyAt(buf, RR_HEADER_LENGTH, r.data);
    assert buf[..] == buf[..RR_HEADER_LENGTH + |r.data|];
  }

  /** The payload in full, for small numbers. */
  lemma PackImage(request: bool, key: U8, x: U8)
    ensures Pack(RequestReply(request, key, [x]))
            == [0, 0, 0, 0, 0, 0, 0, 1, 0, 0, 0, 0, 0, 0, 0, key, if request then 1 else 0, x]
  {
    SmallU64(1);
    SmallU64(key);
  }

  function Unpack(b: seq<U8>): (r: Result<RequestReply>)
    ensures !r.Err?
  {
    if |b| < RR_HEADER_LENGTH then Panic
    else
      var dl := GetU64(b[0..8]);
      if dl > MAX_LEN then Panic
      else Ok(RequestReply(b[16] == 1, GetU64(b[8..16]), CopyInto(b[RR_HEADER_LENGTH..], dl)))
  }

  lemma UnpackOfPack(r: RequestReply)
    ensures Unpack(Pack(r)) == Ok(r)
  {
    var b := Pack(r);
    assert b[0..8] == PutU64(|r.data|);
    assert b[8..16] == PutU64(r.key);
    assert b[RR_HEADER_LENGTH..] == r.data;
  }

  /** Packing again what was unpacked gives the same bytes iff the length field counts the
      bytes that follow and the flag is one that Pack writes. */
  lemma PackOfUnpackIff(b: seq<U8>)
    requires Unpack(b).Ok?
    ensures Pack(Unpack(b).value) == b <==> GetU64(b[0..8]) == |b| - RR_HEADER_LENGTH && b[16] <= 1
    ensures Pack(Unpack(b).value)[16] == if b[16] == 1 then 1 else 0
  {
    var r := Unpack(b).value;
    if GetU64(b[0..8]) == |b| - RR_HEADER_LENGTH && b[16] <= 1 {
      assert b == b[0..8] + b[8..16] + [b[16]] + b[RR_HEADER_LENGTH..];
      assert r.data == b[RR_HEADER_LENGTH..];
    } else {
      assert |r.data| == GetU64(b[0..8]);
      assert Pack(r)[16] == if r.request then 1 else 0;
    }
  }

  // ---- a request or reply as one frame ----

  /** What Call and handleRPC hand to write, as bytes on the wire. */
  ghost function Wire(from: U64, r: RequestReply): (b: seq<U8>)
    requires RR_HEADER_LENGTH + |r.data| <= MAX_LEN
  {
    Encode(Message(MESSAGE_REQUEST_REPLY, from, Pack(r)))
  }

  /** What the reader makes of a frame that arrives whole. */
  function Parse(b: seq<U8>): (p: Result<(U64, RequestReply)>)
  {
    var f := ReadFrame(b, [Outcome(|b|, false), Outcome(|b|, false)]);
    if !f.Got? || f.m.kind != MESSAGE_REQUEST_REPLY then Err
    else match Unpack(f.m.data)
      case Ok(r) => Ok((f.m.from, r))
      case _ => Panic
  }

  /** Of a whole frame the reader makes a request or reply iff it is of that kind; one of
      that kind whose payload is too short, or says it is too long, makes it panic. */
  lemma ParseOfFrame(m: Message)
    ensures Parse(Encode(m)) ==
      if m.kind != MESSAGE_REQUEST_REPLY then Err
      else if |m.data| < RR_HEADER_LENGTH || GetU64(m.data[0..8]) > MAX_LEN then Panic
      else Ok((m.from, Unpack(m.data).value))
  {
    var b := Encode(m);
    assert [m][1..] == [];
    assert EncodeAll([m]) == b + EncodeAll([m][1..]) == b;
    FirstFrame([m], b, [Outcome(|b|, false), Outcome(|b|, false)]);
    FirstFrameIff([m], [Outcome(|b|, false), Outcome(|b|, false)]);
  }

  lemma ParseOfWire(from: U64, r: RequestReply)
    requires RR_HEADER_LENGTH + |r.data| <= MAX_LEN
    ensures Parse(Wire(from, r)) == Ok((from, r))
  {
    ParseOfFrame(Message(MESSAGE_REQUEST_REPLY, from, Pack(r)));
    UnpackOfPack(r);
  }
}
