/**
 Remote calls between servers.  A call draws a random key, registers a reply channel
 under it, sends the key with the request and waits; the other side hands the request to
 its application and sends the answer back under the same key.

 One step is one map operation, one write or one channel operation; any number of calls
 and handlers run on any number of servers.  Packets on the wire are bytes.  They may be
 delayed, reordered and lost, which covers every connection that breaks, and each arrives
 at most once.
 */
module Rpc {
  import opened BigEndian
  import opened Messages
  import opened Results
  import opened Runs

  type Server = U64
  type Key = U64

  /** Data small enough to be framed. */
  type Payload = s: seq<U8> | |s| <= MAX_LEN - RR_HEADER_LENGTH witness []

  /** The application of server answered the request (sender, key, data) with reply. The
      request was that of call. */
  datatype Answer = Answer(server: Server, sender: Server, key: Key, data: Bytes, reply: Payload, call: nat)

  /** What a packet stems from.  Nothing of it is on the wire, and no step depends on it. */
  datatype Origin = Asking(call: nat) | Answering(a: Answer)

  function CallOf(o: Origin): nat
  {
    match o
    case Asking(c) => c
    case Answering(a) => a.call
  }

  datatype Packet = Packet(to: Server, bytes: seq<U8>, origin: Origin)

  /** Data received by a call, and where it comes from. */
  datatype Received = Received(data: Bytes, origin: Origin)

  datatype Status =
    | Registered                   // in rr, request not written yet
    | Waiting                      // in the select
    | Leaving(reply: Option<Received>)  // about to run the deferred rr.Delete
    | Left(reply: Option<Received>)

  datatype Call = Call(caller: Server, peer: Server, data: Payload, key: Key, status: Status)

  /** A request handed to the application of server, not answered yet. */
  datatype Handler = Handler(server: Server, sender: Server, key: Key, data: Bytes, call: nat)

  /** A goroutine that took call's reply channel out of rr and is about to send on it. */
  datatype Offer = Offer(call: nat, got: Received)

  /** rr: the calls registered on each server.  answers, receipts, asked and lost record what
      happened: asked holds a call as often as its request was handed to an application. */
  datatype State = State(
    calls: map<nat, Call>, rr: map<(Server, Key), nat>, packets: multiset<Packet>,
    handlers: map<nat, Handler>, offers: map<nat, Offer>,
    answers: set<Answer>, receipts: multiset<nat>, asked: multiset<nat>, lost: multiset<Packet>)

  datatype Event =
    | Draw(call: nat, caller: Server, peer: Server, data: Payload, key: Key)
    | Write(call: nat)
    | WriteFails(call: nat)
    | Lose(p: Packet)        // it never arrives, or its reply channel is gone
    | Accept(p: Packet, handler: nat)
    | Reply(handler: nat, reply: Payload, written: bool)
    | GiveUp(handler: nat)
    | Deliver(p: Packet, offer: nat)
    | Receive(offer: nat)
    | Timeout(call: nat)
    | Finish(call: nat)

  predicate HasStatus(s: State, c: nat, st: Status)
  {
    c in s.calls && s.calls[c].status == st
  }

  function SetStatus(s: State, c: nat, st: Status): State
    requires c in s.calls
  {
    s.(calls := s.calls[c := s.calls[c].(status := st)])
  }

  /** A packet that the reader takes for a request, and for a reply. */
  predicate IsRequest(p: Packet)
  {
    Parse(p.bytes).Ok? && Parse(p.bytes).value.1.request
  }

  predicate IsReply(p: Packet)
  {
    Parse(p.bytes).Ok? && !Parse(p.bytes).value.1.request
  }

  predicate Enabled(s: State, e: Event)
  {
    match e
    case Draw(c, caller, _, _, key) => c !in s.calls && (caller, key) !in s.rr
    case Write(c) => HasStatus(s, c, Registered)
    case WriteFails(c) => HasStatus(s, c, Registered)
    case Lose(p) => p in s.packets
    case Accept(p, h) => p in s.packets && IsRequest(p) && h !in s.handlers
    case Reply(h, _, _) => h in s.handlers
    case GiveUp(h) => h in s.handlers
    case Deliver(p, o) =>
      p in s.packets && IsReply(p) && o !in s.offers && (p.to, Parse(p.bytes).value.1.key) in s.rr
    case Receive(o) => o in s.offers && HasStatus(s, s.offers[o].call, Waiting)
    case Timeout(c) => HasStatus(s, c, Waiting)
    case Finish(c) => c in s.calls && s.calls[c].status.Leaving?
  }

  ghost function Request(x: Call, c: nat): Packet
  {
    Packet(x.peer, Wire(x.caller, RequestReply(true, x.key, x.data)), Asking(c))
  }

  ghost function Response(a: Answer): Packet
  {
    Packet(a.sender, Wire(a.server, RequestReply(false, a.key, a.reply)), Answering(a))
  }

  function AnswerTo(x: Handler, reply: Payload): Answer
  {
    Answer(x.server, x.sender, x.key, x.data, reply, x.call)
  }

  ghost function Apply(s: State, e: Event): State
    requires Enabled(s, e)
  {
    match e
    case Draw(c, caller, peer, data, key) =>
      s.(calls := s.calls[c := Call(caller, peer, data, key, Registered)], rr := s.rr[(caller, key) := c])
    case Write(c) =>
      SetStatus(s, c, Waiting).(packets := s.packets + multiset{Request(s.calls[c], c)})
    case WriteFails(c) =>
      SetStatus(s, c, Leaving(None))
    case Lose(p) =>
      s.(packets := s.packets - multiset{p}, lost := s.lost + multiset{p})
    case Accept(p, h) =>
      var (from, r) := Parse(p.bytes).value;
      s.(handlers := s.handlers[h := Handler(p.to, from, r.key, r.data, CallOf(p.origin))],
         packets := s.packets - multiset{p}, asked := s.asked + multiset{CallOf(p.origin)})
    case Reply(h, reply, written) =>
      var a := AnswerTo(s.handlers[h], reply);
      s.(handlers := s.handlers - {h}, answers := s.answers + {a},
         packets := if written then s.packets + multiset{Response(a)} else s.packets)
    case GiveUp(h) =>
      s.(handlers := s.handlers - {h})
    case Deliver(p, o) =>
      var r := Parse(p.bytes).value.1;
      s.(rr := s.rr - {(p.to, r.key)}, packets := s.packets - multiset{p},
         offers := s.offers[o := Offer(s.rr[(p.to, r.key)], Received(r.data, p.origin))])
    case Receive(o) =>
      SetStatus(s, s.offers[o].call, Leaving(Some(s.offers[o].got))).(
        offers := s.offers - {o}, receipts := s.receipts + multiset{s.offers[o].call})
    case Timeout(c) =>
      SetStatus(s, c, Leaving(None))
    case Finish(c) =>
      SetStatus(s, c, Left(s.calls[c].status.reply)).(rr := s.rr - {(s.calls[c].caller, s.calls[c].key)})
  }

  const Start := State(map[], map[], multiset{}, map[], map[], {}, multiset{}, multiset{}, multiset{})

  ghost predicate Next(s: State, s': State)
  {
    exists e :: Enabled(s, e) && s' == Apply(s, e)
  }

  ghost predicate IsRpcRun(trace: seq<State>)
  {
    IsRun(s => s == Start, Next, trace)
  }

  function ReplyOf(st: Status): Option<Received>
  {
    if st.Leaving? || st.Left? then st.reply else None
  }

  // ---- where everything in flight comes from ----

  /** The application addressed by a.call was asked exactly what that call asked. */
  predicate AnswerOk(s: State, a: Answer)
  {
    && a in s.answers && a.call in s.calls
    && var x := s.calls[a.call];
       a.server == x.peer && a.sender == x.caller && a.key == x.key && a.data == x.data
  }

  predicate HandlerOk(s: State, h: Handler)
  {
    && h.call in s.calls
    && var x := s.calls[h.call];
       h.server == x.peer && h.sender == x.caller && h.key == x.key && h.data == x.data
  }

  /** Data that is an answer to a call of caller under key. */
  predicate GotOk(s: State, caller: Server, key: Key, g: Received)
  {
    && g.origin.Answering? && AnswerOk(s, g.origin.a)
    && g.data == g.origin.a.reply && g.origin.a.sender == caller && g.origin.a.key == key
  }

  /** The bytes of a packet are those of the request or answer it stems from. */
  ghost predicate PacketOk(s: State, p: Packet)
  {
    match p.origin
    case Asking(c) => c in s.calls && p == Request(s.calls[c], c)
    case Answering(a) => AnswerOk(s, a) && p == Response(a)
  }

  predicate OfferOk(s: State, o: Offer)
  {
    o.call in s.calls && GotOk(s, s.calls[o.call].caller, s.calls[o.call].key, o.got)
  }

  predicate CallOk(s: State, x: Call)
  {
    ReplyOf(x.status).Some? ==> GotOk(s, x.caller, x.key, ReplyOf(x.status).value)
  }

  ghost predicate Origins(s: State)
  {
    && (forall p :: p in s.packets ==> PacketOk(s, p))
    && (forall h :: h in s.handlers ==> HandlerOk(s, s.handlers[h]))
    && (forall a :: a in s.answers ==> AnswerOk(s, a))
    && (forall o :: o in s.offers ==> OfferOk(s, s.offers[o]))
    && (forall c :: c in s.calls ==> CallOk(s, s.calls[c]))
  }

  /** rr names calls under their own key, and only calls that have neither returned nor
      been replied to. */
  ghost predicate RegisteredOk(s: State, k: (Server, Key))
    requires k in s.rr
  {
    var c := s.rr[k];
    && c in s.calls && s.calls[c].caller == k.0 && s.calls[c].key == k.1
    && !s.calls[c].status.Left? && s.receipts[c] == 0
    && forall o :: o in s.offers ==> s.offers[o].call != c
  }

  /** A reply on its way is the only one for its call. */
  ghost predicate OnlyOffer(s: State, o: nat)
    requires o in s.offers
  {
    var c := s.offers[o].call;
    && c in s.calls && s.receipts[c] == 0
    && forall q :: q in s.offers && s.offers[q].call == c ==> q == o
  }

  predicate Replied(s: State, c: nat)
  {
    c in s.calls && ReplyOf(s.calls[c].status).Some?
  }

  ghost predicate ReceiptOk(s: State, c: nat)
  {
    s.receipts[c] == if Replied(s, c) then 1 else 0
  }

  /** One reply at most is ever on its way to a call. */
  ghost predicate OneReply(s: State)
  {
    && (forall k :: k in s.rr ==> RegisteredOk(s, k))
    && (forall o :: o in s.offers ==> OnlyOffer(s, o))
    && (forall c :: ReceiptOk(s, c))
  }

  /** Calls and answers are only ever added, and a call keeps what it asked. */
  ghost predicate Grows(s: State, s': State)
  {
    && (forall c :: c in s.calls ==> c in s'.calls && s'.calls[c] == s.calls[c].(status := s'.calls[c].status))
    && s.answers <= s'.answers
  }

  lemma CallStays(s: State, e: Event, c: nat)
    requires Enabled(s, e) && c in s.calls
    ensures c in Apply(s, e).calls
    ensures Apply(s, e).calls[c] == s.calls[c].(status := Apply(s, e).calls[c].status)
  {
  }

  lemma StepGrows(s: State, e: Event)
    requires Enabled(s, e)
    ensures Grows(s, Apply(s, e))
  {
    forall c | c in s.calls
      ensures c in Apply(s, e).calls && Apply(s, e).calls[c] == s.calls[c].(status := Apply(s, e).calls[c].status)
    {
      CallStays(s, e, c);
    }
  }

  /** A call has a reply only by a Receive, which takes it from an offer. */
  lemma ReplyComesFrom(s: State, e: Event, c: nat)
    requires Enabled(s, e) && c in Apply(s, e).calls && ReplyOf(Apply(s, e).calls[c].status).Some?
    ensures
      || (c in s.calls && ReplyOf(s.calls[c].status) == ReplyOf(Apply(s, e).calls[c].status))
      || (&& e.Receive? && s.offers[e.offer].call == c
          && ReplyOf(Apply(s, e).calls[c].status) == Some(s.offers[e.offer].got))
  {
  }

  /** An offer is made only by a Deliver. */
  lemma OfferComesFrom(s: State, e: Event, o: nat)
    requires Enabled(s, e) && o in Apply(s, e).offers
    ensures (e.Deliver? && o == e.offer) || (o in s.offers && s.offers[o] == Apply(s, e).offers[o])
  {
  }

  lemma ParseRequest(x: Call, c: nat)
    ensures Parse(Request(x, c).bytes) == Ok((x.caller, RequestReply(true, x.key, x.data)))
  {
    ParseOfWire(x.caller, RequestReply(true, x.key, x.data));
  }

  lemma ParseResponse(a: Answer)
    ensures Parse(Response(a).bytes) == Ok((a.server, RequestReply(false, a.key, a.reply)))
  {
    ParseOfWire(a.server, RequestReply(false, a.key, a.reply));
  }

  /** What a packet in flight says, by its kind. */
  lemma PacketSays(s: State, p: Packet)
    requires PacketOk(s, p)
    ensures IsRequest(p) <==> p.origin.Asking?
    ensures IsReply(p) <==> p.origin.Answering?
    ensures p.origin.Asking? ==> var x := s.calls[p.origin.call];
      p.to == x.peer && Parse(p.bytes).value == (x.caller, RequestReply(true, x.key, x.data))
    ensures p.origin.Answering? ==> var a := p.origin.a;
      p.to == a.sender && Parse(p.bytes).value == (a.server, RequestReply(false, a.key, a.reply))
  {
    match p.origin
    case Asking(c) => ParseRequest(s.calls[c], c);
    case Answering(a) => ParseResponse(a);
  }

  lemma PacketStays(s: State, s': State, p: Packet)
    requires Grows(s, s') && PacketOk(s, p)
    ensures PacketOk(s', p)
  {
  }

  lemma StepKeepsPackets(s: State, e: Event, p: Packet)
    requires Enabled(s, e) && Origins(s) && p in Apply(s, e).packets
    ensures PacketOk(Apply(s, e), p)
  {
    StepGrows(s, e);
    if p in s.packets {
      PacketStays(s, Apply(s, e), p);
    } else if e.Reply? {
      assert HandlerOk(s, s.handlers[e.handler]);
    }
  }

  lemma StepKeepsHandlers(s: State, e: Event, h: nat)
    requires Enabled(s, e) && Origins(s) && h in Apply(s, e).handlers
    ensures HandlerOk(Apply(s, e), Apply(s, e).handlers[h])
  {
    StepGrows(s, e);
    if e.Accept? && h == e.handler {
      PacketSays(s, e.p);
    } else {
      assert HandlerOk(s, s.handlers[h]);
    }
  }

  lemma StepKeepsAnswers(s: State, e: Event, a: Answer)
    requires Enabled(s, e) && Origins(s) && a in Apply(s, e).answers
    ensures AnswerOk(Apply(s, e), a)
  {
    StepGrows(s, e);
    if a in s.answers {
      assert AnswerOk(s, a);
    } else {
      assert HandlerOk(s, s.handlers[e.handler]);
    }
  }

  lemma StepKeepsOffers(s: State, e: Event, o: nat)
    requires Enabled(s, e) && Origins(s) && OneReply(s) && o in Apply(s, e).offers
    ensures OfferOk(Apply(s, e), Apply(s, e).offers[o])
  {
    StepGrows(s, e);
    if e.Deliver? && o == e.offer {
      PacketSays(s, e.p);
      assert RegisteredOk(s, (e.p.to, Parse(e.p.bytes).value.1.key));
    } else {
      assert OfferOk(s, s.offers[o]);
    }
  }

  lemma StepKeepsCalls(s: State, e: Event, c: nat)
    requires Enabled(s, e) && Origins(s) && c in Apply(s, e).calls
    ensures CallOk(Apply(s, e), Apply(s, e).calls[c])
  {
    var s' := Apply(s, e);
    if ReplyOf(s'.calls[c].status).Some? {
      StepGrows(s, e);
      ReplyComesFrom(s, e, c);
      assert c in s.calls ==> CallOk(s, s.calls[c]);
      assert e.Receive? ==> OfferOk(s, s.offers[e.offer]);
    }
  }

  lemma StepKeepsOrigins(s: State, e: Event)
    requires Enabled(s, e) && Origins(s) && OneReply(s)
    ensures Origins(Apply(s, e))
  {
    var s' := Apply(s, e);
    forall p | p in s'.packets ensures PacketOk(s', p) { StepKeepsPackets(s, e, p); }
    forall h | h in s'.handlers ensures HandlerOk(s', s'.handlers[h]) { StepKeepsHandlers(s, e, h); }
    forall a | a in s'.answers ensures AnswerOk(s', a) { StepKeepsAnswers(s, e, a); }
    forall o | o in s'.offers ensures OfferOk(s', s'.offers[o]) { StepKeepsOffers(s, e, o); }
    forall c | c in s'.calls ensures CallOk(s', s'.calls[c]) { StepKeepsCalls(s, e, c); }
  }

  lemma DrawnIsOk(s: State, e: Event, k: (Server, Key))
    requires e.Draw? && Enabled(s, e) && OneReply(s) && k in Apply(s, e).rr
    ensures RegisteredOk(Apply(s, e), k)
  {
    if k in s.rr {
      assert RegisteredOk(s, k);
    } else {
      assert ReceiptOk(s, e.call);
      assert forall o :: o in s.offers ==> OnlyOffer(s, o);
    }
  }

  lemma RegisteredStaysOk(s: State, e: Event, k: (Server, Key))
    requires Enabled(s, e) && OneReply(s) && k in Apply(s, e).rr
    ensures RegisteredOk(Apply(s, e), k)
  {
    if k in s.rr {
      assert RegisteredOk(s, k);
    }
    if e.Draw? {
      DrawnIsOk(s, e, k);
    } else if e.Deliver? {
      var j := (e.p.to, Parse(e.p.bytes).value.1.key);
      assert RegisteredOk(s, j) && k != j;
    } else if e.Receive? {
      assert OnlyOffer(s, e.offer);
    }
  }

  lemma DeliveredIsOnly(s: State, e: Event, o: nat)
    requires e.Deliver? && Enabled(s, e) && OneReply(s) && o in Apply(s, e).offers
    ensures OnlyOffer(Apply(s, e), o)
  {
    assert RegisteredOk(s, (e.p.to, Parse(e.p.bytes).value.1.key));
    assert o != e.offer ==> OnlyOffer(s, o);
  }

  lemma OfferStaysOnly(s: State, e: Event, o: nat)
    requires Enabled(s, e) && OneReply(s) && o in Apply(s, e).offers
    ensures OnlyOffer(Apply(s, e), o)
  {
    if e.Deliver? {
      DeliveredIsOnly(s, e, o);
    } else {
      assert OnlyOffer(s, o);
    }
  }

  lemma RepliedOnlyByReceive(s: State, e: Event, c: nat)
    requires Enabled(s, e) && !e.Receive?
    ensures Replied(Apply(s, e), c) <==> Replied(s, c)
  {
  }

  lemma ReceivedOk(s: State, e: Event, c: nat)
    requires e.Receive? && Enabled(s, e) && OneReply(s)
    ensures ReceiptOk(Apply(s, e), c)
  {
    assert ReceiptOk(s, c) && OnlyOffer(s, e.offer);
  }

  lemma ReceiptStaysOk(s: State, e: Event, c: nat)
    requires Enabled(s, e) && OneReply(s)
    ensures ReceiptOk(Apply(s, e), c)
  {
    if e.Receive? {
      ReceivedOk(s, e, c);
    } else {
      assert ReceiptOk(s, c);
      RepliedOnlyByReceive(s, e, c);
      assert Apply(s, e).receipts == s.receipts;
    }
  }

  lemma StepKeepsOneReply(s: State, e: Event)
    requires Enabled(s, e) && OneReply(s)
    ensures OneReply(Apply(s, e))
  {
    forall k | k in Apply(s, e).rr ensures RegisteredOk(Apply(s, e), k) { RegisteredStaysOk(s, e, k); }
    forall o | o in Apply(s, e).offers ensures OnlyOffer(Apply(s, e), o) { OfferStaysOnly(s, e, o); }
    forall c ensures ReceiptOk(Apply(s, e), c) { ReceiptStaysOk(s, e, c); }
  }

  ghost predicate Inv(s: State)
  {
    Origins(s) && OneReply(s)
  }

  lemma NextKeepsInv()
    ensures forall s, s' :: Inv(s) && Next(s, s') ==> Inv(s')
  {
    forall s, s' | Inv(s) && Next(s, s')
      ensures Inv(s')
    {
      var e :| Enabled(s, e) && s' == Apply(s, e);
      StepKeepsOrigins(s, e);
      StepKeepsOneReply(s, e);
    }
  }

  lemma RunKeepsInv(trace: seq<State>, k: nat)
    requires IsRpcRun(trace) && k < |trace|
    ensures Inv(trace[k])
  {
    NextKeepsInv();
    InvariantHolds(s => s == Start, Next, Inv, trace, k);
  }

  // ---- nothing happens twice ----

  /** How often the request of c was sent, by what became of it. */
  ghost function Sent(s: State, c: nat): nat
    requires c in s.calls
  {
    s.asked[c] + s.packets[Request(s.calls[c], c)] + s.lost[Request(s.calls[c], c)]
  }

  /** A request is sent once, by the time its call waits. */
  ghost predicate AskOk(s: State, c: nat)
  {
    if c !in s.calls then s.asked[c] == 0
    else match s.calls[c].status
      case Registered => Sent(s, c) == 0
      case Waiting => Sent(s, c) == 1
      case _ => Sent(s, c) <= 1
  }

  function HandlersOf(s: State, c: nat): set<nat>
  {
    set h | h in s.handlers && s.handlers[h].call == c
  }

  function AnswersTo(s: State, c: nat): set<Answer>
  {
    set a | a in s.answers && a.call == c
  }

  function OffersFrom(offers: map<nat, Offer>, a: Answer): set<nat>
  {
    set o | o in offers && offers[o].got.origin == Answering(a)
  }

  function EndedBy(s: State, a: Answer): set<nat>
  {
    set c | c in s.calls && Replied(s, c) && ReplyOf(s.calls[c].status).value.origin == Answering(a)
  }

  /** Where the answer a is, all told. */
  ghost function Copies(s: State, a: Answer): nat
  {
    s.packets[Response(a)] + s.lost[Response(a)] + |OffersFrom(s.offers, a)| + |EndedBy(s, a)|
  }

  ghost predicate HandledOk(s: State, c: nat)
  {
    |HandlersOf(s, c)| + |AnswersTo(s, c)| <= s.asked[c]
  }

  ghost predicate CopiesOk(s: State, a: Answer)
  {
    Copies(s, a) <= if a in s.answers then 1 else 0
  }

  ghost predicate Once(s: State)
  {
    && (forall p :: p in s.lost ==> PacketOk(s, p))
    && (forall c :: AskOk(s, c)) && (forall c :: HandledOk(s, c)) && (forall a :: CopiesOk(s, a))
  }

  lemma LostStaysOk(s: State, e: Event, p: Packet)
    requires Enabled(s, e) && Origins(s) && Once(s) && p in Apply(s, e).lost
    ensures PacketOk(Apply(s, e), p)
  {
    StepGrows(s, e);
    if p in s.lost {
      PacketStays(s, Apply(s, e), p);
    } else {
      PacketStays(s, Apply(s, e), e.p);
    }
  }

  lemma DrawnIsUnsent(s: State, e: Event)
    requires e.Draw? && Enabled(s, e) && Origins(s) && Once(s)
    ensures AskOk(Apply(s, e), e.call)
  {
    assert AskOk(s, e.call);
    var p := Request(Apply(s, e).calls[e.call], e.call);
    assert p in s.packets ==> PacketOk(s, p);
    assert p in s.lost ==> PacketOk(s, p);
  }

  /** How often p is on the wire or was lost there. */
  function Flown(s: State, p: Packet): nat
  {
    s.packets[p] + s.lost[p]
  }

  /** A packet comes by Write or Reply and goes by Accept or Deliver. */
  lemma FlownMoves(s: State, e: Event, p: Packet)
    requires Enabled(s, e)
    ensures var n, n' := Flown(s, p), Flown(Apply(s, e), p);
      match e
      case Write(c) => n' == n + if p == Request(s.calls[c], c) then 1 else 0
      case Reply(h, r, written) => n' == n + if written && p == Response(AnswerTo(s.handlers[h], r)) then 1 else 0
      case Accept(q, _) => n' == n - if p == q then 1 else 0
      case Deliver(q, _) => n' == n - if p == q then 1 else 0
      case _ => n' == n
  {
  }

  lemma AskedMoves(s: State, e: Event, c: nat)
    requires Enabled(s, e)
    ensures Apply(s, e).asked[c] == s.asked[c] + if e.Accept? && CallOf(e.p.origin) == c then 1 else 0
  {
  }

  /** What a step that is not the draw of c does to the request of c. */
  lemma SentMoves(s: State, e: Event, c: nat)
    requires Enabled(s, e) && Origins(s) && c in s.calls
    ensures c in Apply(s, e).calls
    ensures Sent(Apply(s, e), c) == Sent(s, c) + if e == Write(c) then 1 else 0
  {
    CallStays(s, e, c);
    var p := Request(s.calls[c], c);
    assert Request(Apply(s, e).calls[c], c) == p;
    assert Sent(s, c) == s.asked[c] + Flown(s, p);
    assert Sent(Apply(s, e), c) == Apply(s, e).asked[c] + Flown(Apply(s, e), p);
    FlownMoves(s, e, p);
    AskedMoves(s, e, c);
    if e.Accept? || e.Deliver? {
      PacketSays(s, e.p);
    }
  }

  /** How a status can change. */
  lemma StatusMoves(s: State, e: Event, c: nat)
    requires Enabled(s, e) && c in s.calls && c in Apply(s, e).calls
    ensures var was, now := s.calls[c].status, Apply(s, e).calls[c].status;
      && (now.Registered? ==> was.Registered? && e != Write(c))
      && (now.Waiting? ==> was.Waiting? || (was.Registered? && e == Write(c)))
      && (e == Write(c) ==> was.Registered?)
  {
  }

  lemma AskStaysOk(s: State, e: Event, c: nat)
    requires Enabled(s, e) && Origins(s) && Once(s)
    ensures AskOk(Apply(s, e), c)
  {
    assert AskOk(s, c);
    if c in s.calls {
      SentMoves(s, e, c);
      StatusMoves(s, e, c);
    } else if e.Draw? && e.call == c {
      DrawnIsUnsent(s, e);
    } else if e.Accept? {
      PacketSays(s, e.p);
    }
  }

  lemma AcceptedHandled(s: State, e: Event, c: nat)
    requires e.Accept? && Enabled(s, e) && CallOf(e.p.origin) == c && HandledOk(s, c)
    ensures HandledOk(Apply(s, e), c)
  {
    AskedMoves(s, e, c);
    assert HandlersOf(Apply(s, e), c) == HandlersOf(s, c) + {e.handler};
    assert AnswersTo(Apply(s, e), c) == AnswersTo(s, c);
  }

  lemma EndedHandled(s: State, e: Event, c: nat)
    requires (e.Reply? || e.GiveUp?) && Enabled(s, e) && s.handlers[e.handler].call == c && HandledOk(s, c)
    ensures HandledOk(Apply(s, e), c)
  {
    AskedMoves(s, e, c);
    assert e.handler in HandlersOf(s, c);
    assert HandlersOf(Apply(s, e), c) == HandlersOf(s, c) - {e.handler};
    if e.Reply? {
      assert AnswersTo(Apply(s, e), c) == AnswersTo(s, c) + {AnswerTo(s.handlers[e.handler], e.reply)};
    } else {
      assert AnswersTo(Apply(s, e), c) == AnswersTo(s, c);
    }
  }

  lemma OthersHandled(s: State, e: Event, c: nat)
    requires Enabled(s, e)
    requires !(e.Accept? && CallOf(e.p.origin) == c)
    requires !((e.Reply? || e.GiveUp?) && s.handlers[e.handler].call == c)
    ensures HandlersOf(Apply(s, e), c) == HandlersOf(s, c) && AnswersTo(Apply(s, e), c) == AnswersTo(s, c)
    ensures Apply(s, e).asked[c] == s.asked[c]
  {
  }

  lemma HandledStaysOk(s: State, e: Event, c: nat)
    requires Enabled(s, e) && Once(s)
    ensures HandledOk(Apply(s, e), c)
  {
    assert HandledOk(s, c);
    if e.Accept? && CallOf(e.p.origin) == c {
      AcceptedHandled(s, e, c);
    } else if (e.Reply? || e.GiveUp?) && s.handlers[e.handler].call == c {
      EndedHandled(s, e, c);
    } else {
      OthersHandled(s, e, c);
    }
  }

  lemma NewAnswer(s: State, e: Event)
    requires e.Reply? && Enabled(s, e) && Once(s)
    ensures AnswerTo(s.handlers[e.handler], e.reply) !in s.answers
  {
    var a := AnswerTo(s.handlers[e.handler], e.reply);
    var c := a.call;
    assert AskOk(s, c) && HandledOk(s, c);
    assert e.handler in HandlersOf(s, c);
    assert a in s.answers ==> a in AnswersTo(s, c);
  }

  lemma EndedStays(s: State, e: Event, c: nat)
    requires Enabled(s, e) && !e.Receive?
    ensures Replied(Apply(s, e), c) <==> Replied(s, c)
    ensures Replied(s, c) ==> ReplyOf(Apply(s, e).calls[c].status) == ReplyOf(s.calls[c].status)
  {
  }

  lemma EndedSame(s: State, e: Event, a: Answer)
    requires Enabled(s, e) && !e.Receive?
    ensures EndedBy(Apply(s, e), a) == EndedBy(s, a)
  {
    forall c
      ensures c in EndedBy(Apply(s, e), a) <==> c in EndedBy(s, a)
    {
      EndedStays(s, e, c);
    }
  }

  lemma OffersSame(s: State, e: Event, a: Answer)
    requires Enabled(s, e) && !e.Receive? && !e.Deliver?
    ensures OffersFrom(Apply(s, e).offers, a) == OffersFrom(s.offers, a)
  {
  }

  lemma RepliedCopies(s: State, e: Event, a: Answer)
    requires e.Reply? && Enabled(s, e) && Once(s)
    ensures CopiesOk(Apply(s, e), a)
  {
    NewAnswer(s, e);
    assert CopiesOk(s, a);
    FlownMoves(s, e, Response(a));
    EndedSame(s, e, a);
    OffersSame(s, e, a);
  }

  lemma OneOfferMore(offers: map<nat, Offer>, o: nat, x: Offer, a: Answer)
    requires o !in offers
    ensures |OffersFrom(offers[o := x], a)| == |OffersFrom(offers, a)| + if x.got.origin == Answering(a) then 1 else 0
  {
    if x.got.origin == Answering(a) {
      assert OffersFrom(offers[o := x], a) == OffersFrom(offers, a) + {o};
    } else {
      assert OffersFrom(offers[o := x], a) == OffersFrom(offers, a);
    }
  }

  lemma OneOfferLess(offers: map<nat, Offer>, o: nat, a: Answer)
    requires o in offers
    ensures |OffersFrom(offers - {o}, a)|
            == |OffersFrom(offers, a)| - if offers[o].got.origin == Answering(a) then 1 else 0
  {
    if offers[o].got.origin == Answering(a) {
      assert o in OffersFrom(offers, a) && OffersFrom(offers - {o}, a) == OffersFrom(offers, a) - {o};
    } else {
      assert OffersFrom(offers - {o}, a) == OffersFrom(offers, a);
    }
  }

  lemma DeliveredCopies(s: State, e: Event, a: Answer)
    requires e.Deliver? && Enabled(s, e) && Origins(s) && CopiesOk(s, a)
    ensures CopiesOk(Apply(s, e), a)
  {
    assert PacketOk(s, e.p);
    assert e.p.origin == Answering(a) <==> e.p == Response(a) by {
      PacketSays(s, e.p);
    }
    FlownMoves(s, e, Response(a));
    EndedSame(s, e, a);
    OneOfferMore(s.offers, e.offer, Apply(s, e).offers[e.offer], a);
  }

  lemma ReceivedEnds(s: State, e: Event, a: Answer)
    requires e.Receive? && Enabled(s, e)
    ensures |EndedBy(Apply(s, e), a)| == |EndedBy(s, a)| + if s.offers[e.offer].got.origin == Answering(a) then 1 else 0
  {
    if s.offers[e.offer].got.origin == Answering(a) {
      assert EndedBy(Apply(s, e), a) == EndedBy(s, a) + {s.offers[e.offer].call};
    } else {
      assert EndedBy(Apply(s, e), a) == EndedBy(s, a);
    }
  }

  lemma ReceivedCopies(s: State, e: Event, a: Answer)
    requires e.Receive? && Enabled(s, e) && CopiesOk(s, a)
    ensures CopiesOk(Apply(s, e), a)
  {
    FlownMoves(s, e, Response(a));
    OneOfferLess(s.offers, e.offer, a);
    ReceivedEnds(s, e, a);
  }

  lemma OtherCopies(s: State, e: Event, a: Answer)
    requires !e.Reply? && !e.Deliver? && !e.Receive? && Enabled(s, e) && Origins(s) && CopiesOk(s, a)
    ensures CopiesOk(Apply(s, e), a)
  {
    FlownMoves(s, e, Response(a));
    EndedSame(s, e, a);
    OffersSame(s, e, a);
    if e.Accept? {
      PacketSays(s, e.p);
    }
  }

  lemma StepKeepsOnce(s: State, e: Event)
    requires Enabled(s, e) && Origins(s) && Once(s)
    ensures Once(Apply(s, e))
  {
    var s' := Apply(s, e);
    forall p | p in s'.lost ensures PacketOk(s', p) { LostStaysOk(s, e, p); }
    forall c ensures AskOk(s', c) { AskStaysOk(s, e, c); }
    forall c ensures HandledOk(s', c) { HandledStaysOk(s, e, c); }
    forall a
      ensures CopiesOk(s', a)
    {
      assert CopiesOk(s, a);
      if e.Reply? {
        RepliedCopies(s, e, a);
      } else if e.Deliver? {
        DeliveredCopies(s, e, a);
      } else if e.Receive? {
        ReceivedCopies(s, e, a);
      } else {
        OtherCopies(s, e, a);
      }
    }
  }

  /** Whatever keys are drawn: the request of a call is handed to the application once at
      most and answered once at most, an answer ends one call at most, and a call that
      waits has sent its request. */
  lemma NothingHappensTwice(trace: seq<State>, k: nat, c: nat, a: Answer)
    requires IsRpcRun(trace) && k < |trace| && c in trace[k].calls
    ensures trace[k].asked[c] <= 1 && |AnswersTo(trace[k], c)| <= 1 && |EndedBy(trace[k], a)| <= 1
    ensures trace[k].calls[c].status.Waiting? ==> Sent(trace[k], c) == 1
  {
    var inv := s => Inv(s) && Once(s);
    NextKeepsInv();
    forall s, s' | inv(s) && Next(s, s')
      ensures inv(s')
    {
      var e :| Enabled(s, e) && s' == Apply(s, e);
      StepKeepsOnce(s, e);
    }
    InvariantHolds(s => s == Start, Next, inv, trace, k);
    assert AskOk(trace[k], c) && HandledOk(trace[k], c) && CopiesOk(trace[k], a);
  }

  // ---- one reply at most ----

  function OffersFor(s: State, c: nat): set<nat>
  {
    set o | o in s.offers && s.offers[o].call == c
  }

  /** Whatever keys are drawn: the replies a call received and those on their way to it are
      one at most, and none as long as it is registered, because taking the reply channel
      out of rr is what lets a reply go on its way. */
  lemma AtMostOneReply(trace: seq<State>, k: nat, c: nat)
    requires IsRpcRun(trace) && k < |trace|
    ensures trace[k].receipts[c] + |OffersFor(trace[k], c)| <= 1
    ensures c in trace[k].rr.Values ==> trace[k].receipts[c] + |OffersFor(trace[k], c)| == 0
  {
    RunKeepsInv(trace, k);
    var s := trace[k];
    assert ReceiptOk(s, c);
    if o :| o in OffersFor(s, c) {
      assert OnlyOffer(s, o);
      assert OffersFor(s, c) == {o};
    } else {
      assert OffersFor(s, c) == {};
    }
    if c in s.rr.Values {
      var at :| at in s.rr && s.rr[at] == c;
      assert RegisteredOk(s, at);
      assert OffersFor(s, c) == {};
    }
  }

  /** Nothing is left behind: a reply channel is registered only for a call that is still
      under way, under that call's own key. */
  lemma NoRegistrationLeaks(trace: seq<State>, k: nat, at: (Server, Key))
    requires IsRpcRun(trace) && k < |trace| && at in trace[k].rr
    ensures var c := trace[k].rr[at];
      && c in trace[k].calls && !trace[k].calls[c].status.Left?
      && at == (trace[k].calls[c].caller, trace[k].calls[c].key)
  {
    RunKeepsInv(trace, k);
    assert RegisteredOk(trace[k], at);
  }

  // ---- whose reply a call gets ----

  /** What call c got, if anything, is the answer of the application it addressed to c's
      own request. */
  predicate OwnReply(s: State, c: nat)
    requires c in s.calls
  {
    ReplyOf(s.calls[c].status).Some? ==>
      var g := ReplyOf(s.calls[c].status).value;
      && g.origin.Answering? && g.origin.a in s.answers && g.data == g.origin.a.reply
      && g.origin.a == Answer(s.calls[c].peer, s.calls[c].caller, s.calls[c].key, s.calls[c].data, g.origin.a.reply, c)
  }

  /** The request of d can still bring about a reply: it is to be written, on the wire, or
      with the application, or its answer is on the wire. */
  ghost predicate Unresolved(s: State, d: nat)
  {
    || HasStatus(s, d, Registered)
    || (exists p :: p in s.packets && CallOf(p.origin) == d)
    || (exists h :: h in s.handlers && s.handlers[h].call == d)
  }

  /** Another call of caller under the same key than c that is unresolved. */
  ghost predicate Rival(s: State, caller: Server, key: Key, c: nat, d: nat)
  {
    d != c && d in s.calls && s.calls[d].caller == caller && s.calls[d].key == key && Unresolved(s, d)
  }

  predicate Named(s: State, c: nat)
    requires c in s.calls
  {
    var k := (s.calls[c].caller, s.calls[c].key);
    k in s.rr && s.rr[k] == c
  }

  ghost predicate OffersOwn(s: State, c: nat)
  {
    forall o :: o in s.offers && s.offers[o].call == c ==> CallOf(s.offers[o].got.origin) == c
  }

  predicate ReplyOwn(s: State, c: nat)
    requires c in s.calls
  {
    ReplyOf(s.calls[c].status).Some? ==> CallOf(ReplyOf(s.calls[c].status).value.origin) == c
  }

  ghost predicate Unrivalled(s: State, c: nat)
    requires c in s.calls
  {
    forall d :: !Rival(s, s.calls[c].caller, s.calls[c].key, c, d)
  }

  /** All that is on its way to c, and all that c got, is its own; while c is registered
      nothing else can come. */
  ghost predicate Untainted(s: State, c: nat)
  {
    c in s.calls && OffersOwn(s, c) && ReplyOwn(s, c) && (Named(s, c) ==> Unrivalled(s, c))
  }

  lemma PacketComesFrom(s: State, e: Event, p: Packet)
    requires Enabled(s, e) && p in Apply(s, e).packets
    ensures
      || p in s.packets
      || (e.Write? && CallOf(p.origin) == e.call)
      || (e.Reply? && CallOf(p.origin) == s.handlers[e.handler].call)
  {
  }

  lemma HandlerComesFrom(s: State, e: Event, h: nat)
    requires Enabled(s, e) && h in Apply(s, e).handlers
    ensures
      || (h in s.handlers && Apply(s, e).handlers[h] == s.handlers[h])
      || (e.Accept? && Apply(s, e).handlers[h].call == CallOf(e.p.origin))
  {
  }

  lemma RegisteredOnlyOnce(s: State, e: Event, d: nat)
    requires Enabled(s, e) && d in s.calls && HasStatus(Apply(s, e), d, Registered)
    ensures HasStatus(s, d, Registered)
  {
  }

  lemma ResolvedStays(s: State, e: Event, d: nat)
    requires Enabled(s, e) && d in s.calls && !Unresolved(s, d)
    ensures !Unresolved(Apply(s, e), d)
  {
    var s' := Apply(s, e);
    forall p | p in s'.packets
      ensures CallOf(p.origin) != d
    {
      PacketComesFrom(s, e, p);
    }
    forall h | h in s'.handlers
      ensures s'.handlers[h].call != d
    {
      HandlerComesFrom(s, e, h);
    }
    if HasStatus(s', d, Registered) {
      RegisteredOnlyOnce(s, e, d);
    }
  }

  lemma NoRivalAppears(s: State, e: Event, c: nat, d: nat)
    requires Enabled(s, e) && Untainted(s, c) && Named(Apply(s, e), c)
    ensures !Rival(Apply(s, e), s.calls[c].caller, s.calls[c].key, c, d)
  {
    assert Named(s, c);
    assert !Rival(s, s.calls[c].caller, s.calls[c].key, c, d);
    if d in s.calls && !Unresolved(s, d) {
      ResolvedStays(s, e, d);
    }
  }

  lemma DeliveredIsOwn(s: State, e: Event, c: nat)
    requires e.Deliver? && Enabled(s, e) && Inv(s) && Untainted(s, c)
    requires s.rr[(e.p.to, Parse(e.p.bytes).value.1.key)] == c
    ensures CallOf(e.p.origin) == c
  {
    var k := (e.p.to, Parse(e.p.bytes).value.1.key);
    PacketSays(s, e.p);
    assert RegisteredOk(s, k) && Named(s, c);
    assert Unresolved(s, CallOf(e.p.origin));
    assert !Rival(s, s.calls[c].caller, s.calls[c].key, c, CallOf(e.p.origin));
  }

  lemma OffersStayOwn(s: State, e: Event, c: nat)
    requires Enabled(s, e) && Inv(s) && Untainted(s, c)
    ensures OffersOwn(Apply(s, e), c)
  {
    var s' := Apply(s, e);
    forall o | o in s'.offers && s'.offers[o].call == c
      ensures CallOf(s'.offers[o].got.origin) == c
    {
      OfferComesFrom(s, e, o);
      if e.Deliver? && o == e.offer {
        DeliveredIsOwn(s, e, c);
      }
    }
  }

  lemma StepKeepsUntainted(s: State, e: Event, c: nat)
    requires Enabled(s, e) && Inv(s) && Untainted(s, c)
    ensures Untainted(Apply(s, e), c)
  {
    var s' := Apply(s, e);
    CallStays(s, e, c);
    OffersStayOwn(s, e, c);
    if ReplyOf(s'.calls[c].status).Some? {
      ReplyComesFrom(s, e, c);
    }
    if Named(s', c) {
      forall d ensures !Rival(s', s'.calls[c].caller, s'.calls[c].key, c, d) { NoRivalAppears(s, e, c, d); }
    }
  }

  ghost predicate UntaintedInv(s: State, c: nat)
  {
    Inv(s) && Untainted(s, c)
  }

  lemma NextKeepsUntainted(c: nat)
    ensures forall s, s' :: UntaintedInv(s, c) && Next(s, s') ==> UntaintedInv(s', c)
  {
    NextKeepsInv();
    forall s, s' | UntaintedInv(s, c) && Next(s, s')
      ensures UntaintedInv(s', c)
    {
      var e :| Enabled(s, e) && s' == Apply(s, e);
      StepKeepsUntainted(s, e, c);
    }
  }

  lemma UntaintedIsOwn(s: State, c: nat)
    requires UntaintedInv(s, c)
    ensures OwnReply(s, c)
  {
    assert CallOk(s, s.calls[c]);
  }

  lemma DrawnUntainted(s: State, e: Event)
    requires Inv(s) && e.Draw? && Enabled(s, e)
    requires forall d :: !Rival(s, e.caller, e.key, e.call, d)
    ensures UntaintedInv(Apply(s, e), e.call)
  {
    var s' := Apply(s, e);
    NextKeepsInv();
    assert Next(s, s');
    forall o | o in s'.offers
      ensures s'.offers[o].call != e.call
    {
      assert OnlyOffer(s, o);
    }
    forall d
      ensures !Rival(s', e.caller, e.key, e.call, d)
    {
      assert !Rival(s, e.caller, e.key, e.call, d);
    }
  }

  /** In every run, a call that at its draw has no unresolved rival never gets anything but
      the answer of the server it addressed to its own request, whatever is drawn later. */
  lemma CallGetsOwnReply(trace: seq<State>, j: nat, k: nat, e: Event)
    requires IsRpcRun(trace) && j < k < |trace|
    requires e.Draw? && Enabled(trace[j], e) && trace[j + 1] == Apply(trace[j], e)
    requires forall d :: !Rival(trace[j], e.caller, e.key, e.call, d)
    ensures e.call in trace[k].calls && OwnReply(trace[k], e.call)
  {
    RunKeepsInv(trace, j);
    DrawnUntainted(trace[j], e);
    NextKeepsInv();
    NextKeepsUntainted(e.call);
    var untainted := s => UntaintedInv(s, e.call);
    StaysTrue(s => s == Start, Next, Inv, untainted, trace, j + 1, k);
    UntaintedIsOwn(trace[k], e.call);
  }

  /** So a key that its server had not drawn before is safe. */
  lemma NewKeyGetsOwnReply(trace: seq<State>, j: nat, k: nat, e: Event)
    requires IsRpcRun(trace) && j < k < |trace|
    requires e.Draw? && Enabled(trace[j], e) && trace[j + 1] == Apply(trace[j], e)
    requires forall d :: d in trace[j].calls ==> (trace[j].calls[d].caller, trace[j].calls[d].key) != (e.caller, e.key)
    ensures e.call in trace[k].calls && OwnReply(trace[k], e.call)
  {
    CallGetsOwnReply(trace, j, k, e);
  }

  // ---- exactly when ----

  /** Wherever things go after the draw, the call gets its own reply or none. */
  ghost predicate SafeDraw(s: State, e: Event)
    requires e.Draw? && Enabled(s, e)
  {
    forall s' :: Reaches(Next, Apply(s, e), s') ==> e.call in s'.calls && OwnReply(s', e.call)
  }

  ghost predicate Foreign(s: State, c: nat)
  {
    c in s.calls && ReplyOf(s.calls[c].status).Some? && CallOf(ReplyOf(s.calls[c].status).value.origin) != c
  }

  lemma Go(a: State, s: State, e: Event) returns (s': State)
    requires Reaches(Next, a, s) && Enabled(s, e) && Inv(s)
    ensures s' == Apply(s, e) && Reaches(Next, a, s') && Inv(s')
  {
    s' := Apply(s, e);
    assert Next(s, s');
    ReachesStep(Next, a, s, s');
    StepKeepsOrigins(s, e);
    StepKeepsOneReply(s, e);
  }

  /** c is registered, its request written or not. */
  predicate Ready(s: State, c: nat)
  {
    c in s.calls && Named(s, c) && (s.calls[c].status.Registered? || s.calls[c].status.Waiting?)
  }

  /** p is an answer to another call, sent where c listens. */
  predicate StrayAnswer(s: State, c: nat, p: Packet)
    requires c in s.calls
  {
    && p in s.packets && p.origin.Answering? && p.origin.a.call != c
    && p.origin.a.sender == s.calls[c].caller && p.origin.a.key == s.calls[c].key
  }

  lemma OfferTaints(a: State, s: State, c: nat, o: nat) returns (s': State)
    requires Reaches(Next, a, s) && Inv(s) && HasStatus(s, c, Waiting) && o in s.offers
    requires s.offers[o].call == c && CallOf(s.offers[o].got.origin) != c
    ensures Reaches(Next, a, s') && Foreign(s', c)
  {
    s' := Go(a, s, Receive(o));
  }

  lemma StrayAnswerArrives(a: State, s: State, c: nat, p: Packet) returns (s': State)
    requires Reaches(Next, a, s) && Inv(s) && Ready(s, c) && s.calls[c].status.Waiting? && StrayAnswer(s, c, p)
    ensures Reaches(Next, a, s') && Foreign(s', c)
  {
    PacketSays(s, p);
    var o := AboveAll(s.offers.Keys);
    s' := Go(a, s, Deliver(p, o));
    s' := OfferTaints(a, s', c, o);
  }

  /** An answer to another call that is on the wire reaches c. */
  lemma AnswerTaints(a: State, s: State, c: nat, p: Packet) returns (s': State)
    requires Reaches(Next, a, s) && Inv(s) && Ready(s, c) && StrayAnswer(s, c, p)
    ensures Reaches(Next, a, s') && Foreign(s', c)
  {
    s' := s;
    if s.calls[c].status.Registered? {
      s' := Go(a, s, Write(c));
    }
    s' := StrayAnswerArrives(a, s', c, p);
  }

  /** A request of another call that is with the application reaches c as its answer. */
  lemma HandlerTaints(a: State, s: State, c: nat, h: nat) returns (s': State)
    requires Reaches(Next, a, s) && Inv(s) && Ready(s, c) && h in s.handlers && s.handlers[h].call != c
    requires s.handlers[h].sender == s.calls[c].caller && s.handlers[h].key == s.calls[c].key
    ensures Reaches(Next, a, s') && Foreign(s', c)
  {
    s' := Go(a, s, Reply(h, [], true));
    s' := AnswerTaints(a, s', c, Response(AnswerTo(s.handlers[h], [])));
  }

  /** A request of another call that is on the wire reaches c as its answer. */
  lemma RequestTaints(a: State, s: State, c: nat, p: Packet) returns (s': State)
    requires Reaches(Next, a, s) && Inv(s) && Ready(s, c) && p in s.packets
    requires p.origin.Asking? && p.origin.call != c
    requires p.origin.call in s.calls
    requires s.calls[p.origin.call].caller == s.calls[c].caller && s.calls[p.origin.call].key == s.calls[c].key
    ensures Reaches(Next, a, s') && Foreign(s', c)
  {
    PacketSays(s, p);
    var h := AboveAll(s.handlers.Keys);
    s' := Go(a, s, Accept(p, h));
    s' := HandlerTaints(a, s', c, h);
  }

  lemma RivalTaints(a: State, s: State, c: nat, d: nat) returns (s': State)
    requires Reaches(Next, a, s) && Inv(s) && Ready(s, c)
    requires Rival(s, s.calls[c].caller, s.calls[c].key, c, d)
    ensures Reaches(Next, a, s') && Foreign(s', c)
  {
    if HasStatus(s, d, Registered) {
      s' := Go(a, s, Write(d));
      s' := RequestTaints(a, s', c, Request(s.calls[d], d));
    } else if p :| p in s.packets && CallOf(p.origin) == d {
      assert PacketOk(s, p);
      if p.origin.Asking? {
        s' := RequestTaints(a, s, c, p);
      } else {
        s' := AnswerTaints(a, s, c, p);
      }
    } else {
      var h :| h in s.handlers && s.handlers[h].call == d;
      assert HandlerOk(s, s.handlers[h]);
      s' := HandlerTaints(a, s, c, h);
    }
  }

  lemma RivalStays(s: State, e: Event, d: nat)
    requires e.Draw? && Enabled(s, e) && Rival(s, e.caller, e.key, e.call, d)
    ensures Rival(Apply(s, e), e.caller, e.key, e.call, d)
  {
    var s' := Apply(s, e);
    assert s'.packets == s.packets && s'.handlers == s.handlers;
    assert s'.calls[d] == s.calls[d];
  }

  /** In every reachable state, drawing a key is safe in all that may follow iff no earlier
      call of the same server under the same key is unresolved. */
  lemma SafeDrawIff(trace: seq<State>, k: nat, e: Event)
    requires IsRpcRun(trace) && k < |trace| && e.Draw? && Enabled(trace[k], e)
    ensures SafeDraw(trace[k], e) <==> forall d :: !Rival(trace[k], e.caller, e.key, e.call, d)
  {
    RunKeepsInv(trace, k);
    var s := trace[k];
    var s1 := Apply(s, e);
    if d :| Rival(s, e.caller, e.key, e.call, d) {
      StepKeepsOrigins(s, e);
      StepKeepsOneReply(s, e);
      RivalStays(s, e, d);
      ReachesSelf(Next, s1);
      var s' := RivalTaints(s1, s1, e.call, d);
      assert !OwnReply(s', e.call);
    } else {
      DrawnUntainted(s, e);
      NextKeepsUntainted(e.call);
      forall s' | Reaches(Next, s1, s')
        ensures e.call in s'.calls && OwnReply(s', e.call)
      {
        ReachesKeeps(Next, s => UntaintedInv(s, e.call), s1, s');
        UntaintedIsOwn(s', e.call);
      }
    }
  }

  // ---- every call can come to its end ----

  /** c is over, and no reply channel is registered for it. */
  predicate Over(s: State, c: nat, reply: Option<Received>)
  {
    HasStatus(s, c, Left(reply)) && !Named(s, c)
  }

  lemma Finishes(a: State, s: State, c: nat) returns (s': State)
    requires Reaches(Next, a, s) && Inv(s) && c in s.calls && s.calls[c].status.Leaving?
    ensures Reaches(Next, a, s') && Inv(s') && Over(s', c, s.calls[c].status.reply) && s'.packets == s.packets
  {
    s' := Go(a, s, Finish(c));
  }

  /** A call whose request cannot be written ends with nothing sent. */
  lemma CallCanFail(trace: seq<State>, k: nat, c: nat) returns (s': State)
    requires IsRpcRun(trace) && k < |trace| && HasStatus(trace[k], c, Registered)
    ensures Reaches(Next, trace[k], s') && Over(s', c, None) && s'.packets == trace[k].packets
  {
    RunKeepsInv(trace, k);
    ReachesSelf(Next, trace[k]);
    s' := Go(trace[k], trace[k], WriteFails(c));
    s' := Finishes(trace[k], s', c);
  }

  /** A call that waits can give up. */
  lemma CallCanTimeOut(trace: seq<State>, k: nat, c: nat) returns (s': State)
    requires IsRpcRun(trace) && k < |trace| && HasStatus(trace[k], c, Waiting)
    ensures Reaches(Next, trace[k], s') && Over(s', c, None) && s'.packets == trace[k].packets
  {
    RunKeepsInv(trace, k);
    ReachesSelf(Next, trace[k]);
    s' := Go(trace[k], trace[k], Timeout(c));
    s' := Finishes(trace[k], s', c);
  }

  /** So can the server it asked. */
  lemma ServerCanGiveUp(trace: seq<State>, k: nat, h: nat) returns (s': State)
    requires IsRpcRun(trace) && k < |trace| && h in trace[k].handlers
    ensures Reaches(Next, trace[k], s') && s'.handlers == trace[k].handlers - {h} && s'.packets == trace[k].packets
    ensures s'.answers == trace[k].answers
  {
    RunKeepsInv(trace, k);
    ReachesSelf(Next, trace[k]);
    s' := Go(trace[k], trace[k], GiveUp(h));
  }

  function OwnAnswer(x: Call, c: nat, reply: Payload): Answer
  {
    Answer(x.peer, x.caller, x.key, x.data, reply, c)
  }

  /** The request of c is answered ... */
  lemma RequestAnswered(a: State, s: State, c: nat, reply: Payload) returns (s': State)
    requires Reaches(Next, a, s) && Inv(s) && HasStatus(s, c, Registered) && Named(s, c)
    ensures Reaches(Next, a, s') && Inv(s') && c in s'.calls && Named(s', c)
    ensures s'.calls[c] == s.calls[c].(status := Waiting)
    ensures Response(OwnAnswer(s.calls[c], c, reply)) in s'.packets
  {
    s' := Go(a, s, Write(c));
    var p := Request(s.calls[c], c);
    ParseRequest(s.calls[c], c);
    var h := AboveAll(s'.handlers.Keys);
    s' := Go(a, s', Accept(p, h));
    s' := Go(a, s', Reply(h, reply, true));
  }

  /** ... and the answer received. */
  lemma AnswerReceived(a: State, s: State, c: nat, b: Answer) returns (s': State)
    requires Reaches(Next, a, s) && Inv(s) && HasStatus(s, c, Waiting) && Named(s, c)
    requires Response(b) in s.packets && b.sender == s.calls[c].caller && b.key == s.calls[c].key
    ensures Reaches(Next, a, s') && Inv(s') && HasStatus(s', c, Leaving(Some(Received(b.reply, Answering(b)))))
  {
    ParseResponse(b);
    var o := AboveAll(s.offers.Keys);
    s' := Go(a, s, Deliver(Response(b), o));
    s' := Go(a, s', Receive(o));
  }

  /** From wherever a run has come, a call that is about to be sent can succeed: it ends with
      whatever the application it addresses answers. */
  lemma CallCanSucceed(trace: seq<State>, k: nat, c: nat, reply: Payload) returns (s': State)
    requires IsRpcRun(trace) && k < |trace| && HasStatus(trace[k], c, Registered) && Named(trace[k], c)
    ensures Reaches(Next, trace[k], s')
    ensures Over(s', c, Some(Received(reply, Answering(OwnAnswer(trace[k].calls[c], c, reply)))))
  {
    RunKeepsInv(trace, k);
    ReachesSelf(Next, trace[k]);
    s' := RequestAnswered(trace[k], trace[k], c, reply);
    s' := AnswerReceived(trace[k], s', c, OwnAnswer(trace[k].calls[c], c, reply));
    s' := Finishes(trace[k], s', c);
  }

  lemma Continue(trace: seq<State>, e: Event) returns (longer: seq<State>)
    requires IsRpcRun(trace) && Enabled(trace[|trace| - 1], e)
    ensures IsRpcRun(longer)
    ensures longer == trace + [Apply(trace[|trace| - 1], e)]
  {
    var s' := Apply(trace[|trace| - 1], e);
    assert Next(trace[|trace| - 1], s');
    Extend(s => s == Start, Next, trace, s');
    longer := trace + [s'];
  }

  /** The condition is not idle: a call times out with its request on the wire, and its
      server may draw the same key for a call to another server. */
  lemma ReusedKeyMixesReplies() returns (trace: seq<State>, e: Event)
    ensures IsRpcRun(trace) && e.Draw? && Enabled(trace[|trace| - 1], e)
    ensures !SafeDraw(trace[|trace| - 1], e)
  {
    trace := [Start];
    trace := Continue(trace, Draw(0, 1, 2, [10], 7));
    trace := Continue(trace, Write(0));
    trace := Continue(trace, Timeout(0));
    trace := Continue(trace, Finish(0));
    e := Draw(1, 1, 3, [20], 7);
    var s := trace[|trace| - 1];
    assert s.rr == map[];
    assert Request(Call(1, 2, [10], 7, Registered), 0) in s.packets;
    assert Rival(s, 1, 7, 1, 0);
    SafeDrawIff(trace, |trace| - 1, e);
  }
}
