/**
 The life of a messaging stream with one peer: Register starts a reader, a writer and a
 goroutine that waits for both; forget takes the stream out of the peers map, closes its
 connection and closes both its channels; write hands a message to the writer.

 forget looks the stream up by peer, so it closes whatever stream the map holds at that
 moment.  One step is one map, channel or connection operation.  Requests and replies,
 which the reader passes to their own goroutines, do not touch the channels and are left
 out here.
 */
module MessageChannel {
  import opened BigEndian
  import opened Messages
  import opened Results
  import opened Runs

  const CAPACITY := 16

  /** Where a goroutine is inside forget; target is the stream it took from the map. */
  datatype Forget = LookUp | CloseConn(target: nat) | CloseIn(target: nat) | CloseOut(target: nat)

  datatype Reader = Reading | Delivering(m: Message) | Quitting(f: Forget) | ReaderDone | ReaderPanicked
  datatype Writer = Ranging | Sending(m: Message) | WriterDone
  datatype Waiter = InWait | Forgetting(f: Forget) | WaiterDone

  /** A stream's out channel and its writer.  closes: how often out was closed; entered:
      everything ever put on it; drained: what the writer took from it; wire: the bytes the
      connection accepted from the writer. */
  datatype Outbound = Outbound(
    closes: nat, queue: seq<Message>, entered: seq<Message>, drained: seq<Message>, wire: seq<U8>, writer: Writer)

  /** One registered stream.  inCloses: how often in was closed; arrived: what the reader
      read; consumed: what the consumer of in took. */
  datatype Stream = Stream(
    connOpen: bool, inCloses: nat, inQueue: seq<Message>, arrived: seq<Message>, consumed: seq<Message>,
    reader: Reader, waiter: Waiter, out: Outbound)

  /** A call of write, from the lookup on.  had: the stream the lookup found, if any. */
  datatype WriteCall =
    | Loaded(stream: nat, m: Message)
    | Sent(stream: nat, m: Message, at: nat)    // m is entered[at]
    | ReturnedNil(stream: nat, m: Message, at: nat)
    | ReturnedGone(m: Message, had: Option<nat>)

  /** streams: all ever registered for the peer, in order.  entry: the one in the peers map. */
  datatype State = State(streams: seq<Stream>, entry: Option<nat>, writes: map<nat, WriteCall>)

  datatype Event =
    | Register
    | Arrives(i: nat, m: Message)      // reader: a message was read
    | Deliver(i: nat)                  // reader: in <- m
    | ReadFails(i: nat)
    | TakeIn(i: nat)                   // the consumer of in
    | ReaderForgets(i: nat)
    | TakeOut(i: nat)                  // writer: m := <-out
    | WriteDone(i: nat)
    | WriteFails(i: nat, n: nat)       // writer: the connection took n bytes, or failed
    | RangeEnds(i: nat)                // writer: out is closed and empty
    | WaitEnds(i: nat)
    | WaiterForgets(i: nat)
    | Load(w: nat, m: Message)
    | Push(w: nat)                     // out <- m
    | PushPanics(w: nat)               // out is closed; recovered
    | Return(w: nat)

  const Fresh := Stream(true, 0, [], [], [], Reading, InWait, Outbound(0, [], [], [], [], Ranging))

  /** What happens on the out channel: a message enters, the writer takes one, the
      connection accepts a frame whole, or n bytes of it and no more. */
  function Enter(o: Outbound, m: Message): Outbound
  {
    o.(queue := o.queue + [m], entered := o.entered + [m])
  }

  function TakeFirst(o: Outbound): Outbound
    requires o.queue != []
  {
    o.(writer := Sending(o.queue[0]), queue := o.queue[1..], drained := o.drained + [o.queue[0]])
  }

  ghost function Written(o: Outbound): Outbound
    requires o.writer.Sending?
  {
    o.(writer := Ranging, wire := o.wire + Encode(o.writer.m))
  }

  ghost function CutOff(o: Outbound, n: nat): Outbound
    requires o.writer.Sending? && n <= HEADER_LENGTH + |o.writer.m.data|
  {
    o.(writer := WriterDone, wire := o.wire + Encode(o.writer.m)[..n])
  }

  function Consume(c: Stream): Stream
    requires c.inQueue != []
  {
    c.(inQueue := c.inQueue[1..], consumed := c.consumed + [c.inQueue[0]])
  }

  /** One step inside forget: the streams and the entry after it, and what is left to do. */
  datatype Progress = Progress(streams: seq<Stream>, entry: Option<nat>, more: bool, f: Forget)

  predicate CanForget(s: State, f: Forget)
  {
    f.LookUp? || f.target < |s.streams|
  }

  function Advance(s: State, f: Forget): (p: Progress)
    requires CanForget(s, f)
    ensures |p.streams| == |s.streams| && (p.entry == s.entry || p.entry.None?)
    ensures forall i :: 0 <= i < |s.streams| ==>
      && p.streams[i].out == s.streams[i].out.(closes := p.streams[i].out.closes)
      && p.streams[i].out.closes >= s.streams[i].out.closes
  {
    match f
    case LookUp =>
      if s.entry.None? then Progress(s.streams, None, false, f)
      else Progress(s.streams, None, true, CloseConn(s.entry.value))
    case CloseConn(t) =>
      Progress(s.streams[t := s.streams[t].(connOpen := false)], s.entry, true, CloseIn(t))
    case CloseIn(t) =>
      Progress(s.streams[t := s.streams[t].(inCloses := s.streams[t].inCloses + 1)], s.entry, true, CloseOut(t))
    case CloseOut(t) =>
      var o := s.streams[t].out;
      Progress(s.streams[t := s.streams[t].(out := o.(closes := o.closes + 1))], s.entry, false, f)
  }

  predicate Enabled(s: State, e: Event)
  {
    match e
    case Register => s.entry.None?
    case Arrives(i, _) => i < |s.streams| && s.streams[i].reader.Reading?
    case Deliver(i) => i < |s.streams| && s.streams[i].reader.Delivering?
                       && (s.streams[i].inCloses > 0 || |s.streams[i].inQueue| < CAPACITY)
    case ReadFails(i) => i < |s.streams| && s.streams[i].reader.Reading?
    case TakeIn(i) => i < |s.streams| && s.streams[i].inQueue != []
    case ReaderForgets(i) => i < |s.streams| && s.streams[i].reader.Quitting? && CanForget(s, s.streams[i].reader.f)
    case TakeOut(i) => i < |s.streams| && s.streams[i].out.writer.Ranging? && s.streams[i].out.queue != []
    case WriteDone(i) => i < |s.streams| && s.streams[i].out.writer.Sending?
    case WriteFails(i, n) => i < |s.streams| && s.streams[i].out.writer.Sending?
                             && n <= HEADER_LENGTH + |s.streams[i].out.writer.m.data|
    case RangeEnds(i) => i < |s.streams| && s.streams[i].out.writer.Ranging?
                         && s.streams[i].out.queue == [] && s.streams[i].out.closes > 0
    case WaitEnds(i) => i < |s.streams| && s.streams[i].waiter.InWait?
                        && s.streams[i].reader.ReaderDone? && s.streams[i].out.writer.WriterDone?
    case WaiterForgets(i) => i < |s.streams| && s.streams[i].waiter.Forgetting? && CanForget(s, s.streams[i].waiter.f)
    case Load(w, _) => w !in s.writes
    case Push(w) => w in s.writes && s.writes[w].Loaded? && s.writes[w].stream < |s.streams|
                    && s.streams[s.writes[w].stream].out.closes == 0
                    && |s.streams[s.writes[w].stream].out.queue| < CAPACITY
    case PushPanics(w) => w in s.writes && s.writes[w].Loaded? && s.writes[w].stream < |s.streams|
                          && s.streams[s.writes[w].stream].out.closes > 0
    case Return(w) => w in s.writes && s.writes[w].Sent?
  }

  function Put(s: State, i: nat, c: Stream): State
    requires i < |s.streams|
  {
    s.(streams := s.streams[i := c])
  }

  ghost function Apply(s: State, e: Event): State
    requires Enabled(s, e)
  {
    match e
    case Register => s.(streams := s.streams + [Fresh], entry := Some(|s.streams|))
    case Arrives(i, m) => Put(s, i, s.streams[i].(reader := Delivering(m), arrived := s.streams[i].arrived + [m]))
    case Deliver(i) =>
      var c := s.streams[i];
      if c.inCloses > 0 then Put(s, i, c.(reader := ReaderPanicked))
      else Put(s, i, c.(reader := Reading, inQueue := c.inQueue + [c.reader.m]))
    case ReadFails(i) => Put(s, i, s.streams[i].(reader := Quitting(LookUp)))
    case TakeIn(i) => Put(s, i, Consume(s.streams[i]))
    case ReaderForgets(i) =>
      var p := Advance(s, s.streams[i].reader.f);
      State(p.streams[i := p.streams[i].(reader := if p.more then Quitting(p.f) else ReaderDone)], p.entry, s.writes)
    case TakeOut(i) => Put(s, i, s.streams[i].(out := TakeFirst(s.streams[i].out)))
    case WriteDone(i) => Put(s, i, s.streams[i].(out := Written(s.streams[i].out)))
    case WriteFails(i, n) => Put(s, i, s.streams[i].(out := CutOff(s.streams[i].out, n)))
    case RangeEnds(i) => Put(s, i, s.streams[i].(out := s.streams[i].out.(writer := WriterDone)))
    case WaitEnds(i) => Put(s, i, s.streams[i].(waiter := Forgetting(LookUp)))
    case WaiterForgets(i) =>
      var p := Advance(s, s.streams[i].waiter.f);
      State(p.streams[i := p.streams[i].(waiter := if p.more then Forgetting(p.f) else WaiterDone)], p.entry, s.writes)
    case Load(w, m) =>
      s.(writes := s.writes[w := if s.entry.None? then ReturnedGone(m, None) else Loaded(s.entry.value, m)])
    case Push(w) =>
      var (i, m) := (s.writes[w].stream, s.writes[w].m);
      var c := s.streams[i];
      Put(s, i, c.(out := Enter(c.out, m))).(writes := s.writes[w := Sent(i, m, |c.out.entered|)])
    case PushPanics(w) =>
      s.(writes := s.writes[w := ReturnedGone(s.writes[w].m, Some(s.writes[w].stream))])
    case Return(w) =>
      s.(writes := s.writes[w := ReturnedNil(s.writes[w].stream, s.writes[w].m, s.writes[w].at)])
  }

  const Start := State([], None, map[])

  predicate Finished(c: Stream)
  {
    c.reader.ReaderDone? && c.out.writer.WriterDone? && c.waiter.WaiterDone?
  }

  predicate AllFinished(s: State)
  {
    forall i :: 0 <= i < |s.streams| ==> Finished(s.streams[i])
  }

  /** The peer is not registered again before the goroutines of its earlier streams are done. */
  predicate Disciplined(s: State, e: Event)
  {
    e.Register? ==> AllFinished(s)
  }

  ghost predicate AnyNext(s: State, s': State)
  {
    exists e :: Enabled(s, e) && s' == Apply(s, e)
  }

  ghost predicate Next(s: State, s': State)
  {
    exists e :: Enabled(s, e) && Disciplined(s, e) && s' == Apply(s, e)
  }

  ghost predicate IsAnyRun(trace: seq<State>)
  {
    IsRun(s => s == Start, AnyNext, trace)
  }

  ghost predicate IsChannelRun(trace: seq<State>)
  {
    IsRun(s => s == Start, Next, trace)
  }

  // ---- the out side, whenever the peer is registered ----

  /** The wire holds the frames of what the writer took, in order, the last one perhaps in part. */
  ghost predicate WireOk(o: Outbound)
  {
    match o.writer
    case Ranging => o.wire == EncodeAll(o.drained)
    case Sending(m) =>
      o.drained != [] && m == o.drained[|o.drained| - 1] && o.wire == EncodeAll(o.drained[..|o.drained| - 1])
    case WriterDone => o.wire <= EncodeAll(o.drained)
  }

  ghost predicate OutboundOk(o: Outbound)
  {
    WireOk(o) && o.entered == o.drained + o.queue && |o.queue| <= CAPACITY
  }

  lemma TakeFirstOk(o: Outbound)
    requires OutboundOk(o) && o.writer.Ranging? && o.queue != []
    ensures OutboundOk(TakeFirst(o))
  {
    assert (o.drained + [o.queue[0]])[..|o.drained|] == o.drained;
    assert o.queue == [o.queue[0]] + o.queue[1..];
  }

  lemma WrittenOk(o: Outbound, n: nat)
    requires OutboundOk(o) && o.writer.Sending? && n <= HEADER_LENGTH + |o.writer.m.data|
    ensures OutboundOk(Written(o)) && OutboundOk(CutOff(o, n))
  {
    var last := |o.drained| - 1;
    assert o.drained == o.drained[..last] + [o.writer.m];
    EncodeAllSnoc(o.drained[..last], o.writer.m);
  }

  predicate WriteOk(s: State, w: WriteCall)
  {
    match w
    case Loaded(i, _) => i < |s.streams|
    case Sent(i, m, at) =>
      i < |s.streams| && at < |s.streams[i].out.entered| && s.streams[i].out.entered[at] == m
    case ReturnedNil(i, m, at) =>
      i < |s.streams| && at < |s.streams[i].out.entered| && s.streams[i].out.entered[at] == m
    case ReturnedGone(_, had) =>
      had.Some? ==> had.value < |s.streams| && s.streams[had.value].out.closes > 0
  }

  ghost predicate WritesOk(s: State)
  {
    forall w :: w in s.writes ==> WriteOk(s, s.writes[w])
  }

  predicate EntryExists(s: State)
  {
    s.entry.Some? ==> s.entry.value < |s.streams|
  }

  ghost predicate OutboundsOk(s: State)
  {
    forall i :: 0 <= i < |s.streams| ==> OutboundOk(s.streams[i].out)
  }

  /** What holds on the out side in every run. */
  ghost predicate OutInv(s: State)
  {
    EntryExists(s) && OutboundsOk(s) && WritesOk(s)
  }

  /** What a step may do to an out channel: what has entered it stays entered, it stays
      closed once it is, and nothing enters it then. */
  ghost predicate OutStep(o: Outbound, o': Outbound)
  {
    && OutboundOk(o') && o.entered <= o'.entered
    && (o.closes > 0 ==> o'.closes > 0 && o'.entered == o.entered)
  }

  predicate WriterEvent(e: Event)
  {
    e.TakeOut? || e.WriteDone? || e.WriteFails? || e.RangeEnds?
  }

  lemma WriterSteps(s: State, e: Event)
    requires WriterEvent(e) && Enabled(s, e) && OutboundsOk(s)
    ensures OutStep(s.streams[e.i].out, Apply(s, e).streams[e.i].out)
  {
    var o := s.streams[e.i].out;
    assert OutboundOk(o);
    if e.TakeOut? {
      TakeFirstOk(o);
    } else if e.WriteDone? || e.WriteFails? {
      WrittenOk(o, if e.WriteFails? then e.n else 0);
    }
  }

  lemma WriterLeavesOthers(s: State, e: Event, j: nat)
    requires WriterEvent(e) && Enabled(s, e) && OutboundsOk(s) && j < |s.streams| && j != e.i
    ensures |Apply(s, e).streams| == |s.streams| && OutStep(s.streams[j].out, Apply(s, e).streams[j].out)
  {
    assert OutboundOk(s.streams[j].out);
    assert Apply(s, e).streams[j] == s.streams[j];
  }

  lemma ForgetSteps(s: State, e: Event, j: nat)
    requires (e.ReaderForgets? || e.WaiterForgets?) && Enabled(s, e) && OutboundsOk(s) && j < |s.streams|
    ensures |Apply(s, e).streams| == |s.streams| && OutStep(s.streams[j].out, Apply(s, e).streams[j].out)
    ensures Apply(s, e).entry == s.entry || Apply(s, e).entry.None?
  {
    var p := Advance(s, if e.ReaderForgets? then s.streams[e.i].reader.f else s.streams[e.i].waiter.f);
    assert Apply(s, e).streams[j].out == p.streams[j].out;
    assert OutboundOk(s.streams[j].out);
  }

  lemma PushSteps(s: State, e: Event, j: nat)
    requires e.Push? && Enabled(s, e) && OutboundsOk(s) && j < |s.streams|
    ensures j < |Apply(s, e).streams| && OutStep(s.streams[j].out, Apply(s, e).streams[j].out)
  {
    var o := s.streams[s.writes[e.w].stream].out;
    assert OutboundOk(o) && OutboundOk(s.streams[j].out);
    assert o.drained + (o.queue + [s.writes[e.w].m]) == (o.drained + o.queue) + [s.writes[e.w].m];
  }

  /** The other steps leave the out channels alone. */
  lemma OutboundUntouched(s: State, e: Event, j: nat)
    requires !(e.ReaderForgets? || e.WaiterForgets? || WriterEvent(e) || e.Push?)
    requires Enabled(s, e) && j < |s.streams|
    requires OutboundsOk(s)
    ensures j < |Apply(s, e).streams| && OutStep(s.streams[j].out, Apply(s, e).streams[j].out)
  {
    assert OutboundOk(s.streams[j].out);
    assert Apply(s, e).streams[j].out == s.streams[j].out;
  }

  lemma OutboundSteps(s: State, e: Event, j: nat)
    requires Enabled(s, e) && OutboundsOk(s) && j < |s.streams|
    ensures j < |Apply(s, e).streams| && OutStep(s.streams[j].out, Apply(s, e).streams[j].out)
  {
    if e.ReaderForgets? || e.WaiterForgets? {
      ForgetSteps(s, e, j);
    } else if WriterEvent(e) {
      if j == e.i {
        WriterSteps(s, e);
      } else {
        WriterLeavesOthers(s, e, j);
      }
    } else if e.Push? {
      PushSteps(s, e, j);
    } else {
      OutboundUntouched(s, e, j);
    }
  }

  lemma EntryStaysExisting(s: State, e: Event)
    requires Enabled(s, e) && EntryExists(s)
    ensures EntryExists(Apply(s, e))
    ensures |Apply(s, e).streams| == |s.streams| + if e.Register? then 1 else 0
  {
    if e.ReaderForgets? {
      assert |Advance(s, s.streams[e.i].reader.f).streams| == |s.streams|;
    } else if e.WaiterForgets? {
      assert |Advance(s, s.streams[e.i].waiter.f).streams| == |s.streams|;
    }
  }

  /** The stream a call of write found. */
  function StreamOf(w: WriteCall): Option<nat>
  {
    if w.ReturnedGone? then w.had else Some(w.stream)
  }

  lemma OnlyLoadBegins(s: State, e: Event, w: nat)
    requires Enabled(s, e) && w !in s.writes && w in Apply(s, e).writes
    ensures e.Load? && e.w == w
  {
  }

  predicate WriteEvent(e: Event)
  {
    e.Push? || e.PushPanics? || e.Return?
  }

  /** What is true of a call that does not move stays true. */
  lemma StillOk(s: State, s': State, x: WriteCall)
    requires WriteOk(s, x)
    requires StreamOf(x).Some? ==>
      && StreamOf(x).value < |s'.streams|
      && OutStep(s.streams[StreamOf(x).value].out, s'.streams[StreamOf(x).value].out)
    ensures WriteOk(s', x)
  {
  }

  lemma MovedOk(s: State, e: Event)
    requires WriteEvent(e) && Enabled(s, e) && OutInv(s)
    ensures WriteOk(Apply(s, e), Apply(s, e).writes[e.w])
  {
    assert WriteOk(s, s.writes[e.w]);
  }

  lemma WriteStaysOk(s: State, e: Event, w: nat)
    requires Enabled(s, e) && OutInv(s) && w in Apply(s, e).writes
    ensures WriteOk(Apply(s, e), Apply(s, e).writes[w])
  {
    if w !in s.writes {
      OnlyLoadBegins(s, e, w);
    } else if WriteEvent(e) && e.w == w {
      MovedOk(s, e);
    } else {
      assert WriteOk(s, s.writes[w]);
      if StreamOf(s.writes[w]).Some? {
        OutboundSteps(s, e, StreamOf(s.writes[w]).value);
      }
      StillOk(s, Apply(s, e), s.writes[w]);
    }
  }

  lemma StepKeepsOut(s: State, e: Event)
    requires Enabled(s, e) && OutInv(s)
    ensures OutInv(Apply(s, e))
  {
    var s' := Apply(s, e);
    EntryStaysExisting(s, e);
    forall j | 0 <= j < |s'.streams|
      ensures OutboundOk(s'.streams[j].out)
    {
      if j < |s.streams| {
        OutboundSteps(s, e, j);
      }
    }
    forall w | w in s'.writes
      ensures WriteOk(s', s'.writes[w])
    {
      WriteStaysOk(s, e, w);
    }
  }

  lemma AnyNextKeepsOut()
    ensures forall s, s' :: OutInv(s) && AnyNext(s, s') ==> OutInv(s')
  {
    forall s, s' | OutInv(s) && AnyNext(s, s')
      ensures OutInv(s')
    {
      var e :| Enabled(s, e) && s' == Apply(s, e);
      StepKeepsOut(s, e);
    }
  }

  lemma AnyRunKeepsOut(trace: seq<State>, k: nat)
    requires IsAnyRun(trace) && k < |trace|
    ensures OutInv(trace[k])
  {
    AnyNextKeepsOut();
    InvariantHolds(s => s == Start, AnyNext, OutInv, trace, k);
  }

  lemma WireIsPrefix(o: Outbound)
    requires WireOk(o)
    ensures o.wire <= EncodeAll(o.drained)
  {
    if o.writer.Sending? {
      var last := |o.drained| - 1;
      assert o.drained == o.drained[..last] + [o.writer.m];
      EncodeAllSnoc(o.drained[..last], o.writer.m);
    }
  }

  /** From one server to the other: whatever is on the wire at any moment of any run, and
      however the far side's reads split or fail, the far side takes from it a prefix of
      the messages that entered out, whole and in order.  It takes all that the writer has
      written when its reads are filled. */
  lemma ReceivedInOrder(trace: seq<State>, k: nat, i: nat, script: seq<Outcome>)
    requires IsAnyRun(trace) && k < |trace| && i < |trace[k].streams|
    ensures var c := trace[k].streams[i];
      && ReadAll(c.out.wire, script) <= c.out.entered
      && !Panics(c.out.wire, script)
      && (c.out.writer.Ranging? ==> (ReadAll(c.out.wire, script) == c.out.drained <==> Filled(c.out.drained, script)))
  {
    AnyRunKeepsOut(trace, k);
    var c := trace[k].streams[i];
    assert OutboundOk(c.out);
    WireIsPrefix(c.out);
    ReaderGetsPrefix(c.out.drained, c.out.wire, script);
    ReaderGetsAllIff(c.out.drained, script);
  }

  /** The call w is under way or over, with message m, and found had. */
  predicate Found(s: State, w: nat, m: Message, had: Option<nat>)
  {
    w in s.writes && s.writes[w].m == m && StreamOf(s.writes[w]) == had
  }

  lemma AnyNextKeepsFound(s: State, s': State, w: nat, m: Message, had: Option<nat>)
    requires AnyNext(s, s') && Found(s, w, m, had)
    ensures Found(s', w, m, had)
  {
    var e :| Enabled(s, e) && s' == Apply(s, e);
  }

  lemma LoadFinds(s: State, s': State, w: nat)
    requires AnyNext(s, s') && w !in s.writes && w in s'.writes
    ensures StreamOf(s'.writes[w]) == s.entry && s' == Apply(s, Load(w, s'.writes[w].m))
  {
    var e :| Enabled(s, e) && s' == Apply(s, e);
    OnlyLoadBegins(s, e, w);
    assert e == Load(w, e.m);
  }

  /** Which stream a call of write is about: in any run, the one the peers map held for the
      peer at the step the call began, and no other since. */
  lemma WritesToCurrentStream(trace: seq<State>, k: nat, w: nat) returns (j: nat)
    requires IsAnyRun(trace) && k < |trace| && w in trace[k].writes
    ensures j < k && w !in trace[j].writes && trace[j + 1] == Apply(trace[j], Load(w, trace[k].writes[w].m))
    ensures trace[j].entry == StreamOf(trace[k].writes[w])
  {
    j := ComesTrue((s: State) => w in s.writes, trace, k);
    assert AnyNext(trace[(j + 1) - 1], trace[j + 1]);
    LoadFinds(trace[j], trace[j + 1], w);
    var x := trace[j + 1].writes[w];
    var found := s => Found(s, w, x.m, StreamOf(x));
    forall s, s' | found(s) && AnyNext(s, s')
      ensures found(s')
    {
      AnyNextKeepsFound(s, s', w, x.m, StreamOf(x));
    }
    AnyNextKeepsOut();
    StaysTrue(s => s == Start, AnyNext, OutInv, found, trace, j + 1, k);
  }

  /** write returns nil only for a message that entered the out channel of the stream that
      the peers map held for the peer when the call began. */
  lemma NilMeansEntered(trace: seq<State>, k: nat, w: nat) returns (j: nat)
    requires IsAnyRun(trace) && k < |trace|
    requires w in trace[k].writes && trace[k].writes[w].ReturnedNil?
    ensures j < k && w !in trace[j].writes && w in trace[j + 1].writes
    ensures var x := trace[k].writes[w];
      && trace[j].entry == Some(x.stream) && x.stream < |trace[k].streams|
      && x.at < |trace[k].streams[x.stream].out.entered| && trace[k].streams[x.stream].out.entered[x.at] == x.m
  {
    j := WritesToCurrentStream(trace, k, w);
    AnyRunKeepsOut(trace, k);
    assert WriteOk(trace[k], trace[k].writes[w]);
  }

  /** write says the peer is gone only if the peer had no stream when the call began, or the
      one it had is closed. */
  lemma GoneMeansClosed(trace: seq<State>, k: nat, w: nat) returns (j: nat)
    requires IsAnyRun(trace) && k < |trace|
    requires w in trace[k].writes && trace[k].writes[w].ReturnedGone?
    ensures j < k && w !in trace[j].writes && w in trace[j + 1].writes
    ensures trace[j].entry.Some? ==>
      trace[j].entry.value < |trace[k].streams| && trace[k].streams[trace[j].entry.value].out.closes > 0
  {
    j := WritesToCurrentStream(trace, k, w);
    AnyRunKeepsOut(trace, k);
    assert WriteOk(trace[k], trace[k].writes[w]);
  }

  lemma AnyNextKeepsClosed(s: State, s': State, i: nat)
    requires AnyNext(s, s') && OutInv(s) && i < |s.streams| && s.streams[i].out.closes > 0
    ensures i < |s'.streams| && s'.streams[i].out.closes > 0 && s'.streams[i].out.entered == s.streams[i].out.entered
  {
    var e :| Enabled(s, e) && s' == Apply(s, e);
    OutboundSteps(s, e, i);
  }

  /** ... and nothing enters out once it is closed. */
  lemma NothingEntersAfterClose(trace: seq<State>, j: nat, k: nat, i: nat)
    requires IsAnyRun(trace) && j <= k < |trace|
    requires i < |trace[j].streams| && trace[j].streams[i].out.closes > 0
    ensures i < |trace[k].streams| && trace[k].streams[i].out.closes > 0
    ensures trace[k].streams[i].out.entered == trace[j].streams[i].out.entered
  {
    var entered := trace[j].streams[i].out.entered;
    var p := (s: State) => i < |s.streams| && s.streams[i].out.closes > 0 && s.streams[i].out.entered == entered;
    forall s, s' | OutInv(s) && p(s) && AnyNext(s, s')
      ensures p(s')
    {
      AnyNextKeepsClosed(s, s', i);
    }
    AnyNextKeepsOut();
    StaysTrue(s => s == Start, AnyNext, OutInv, p, trace, j, k);
  }

  // ---- no stream is abandoned ----

  /** Some goroutine has taken stream i out of the map and is about to close its connection. */
  ghost predicate Taken(s: State, i: nat)
  {
    exists j :: 0 <= j < |s.streams|
      && (s.streams[j].reader == Quitting(CloseConn(i)) || s.streams[j].waiter == Forgetting(CloseConn(i)))
  }

  ghost predicate NotAbandoned(s: State, i: nat)
  {
    i < |s.streams| ==> s.entry == Some(i) || Taken(s, i) || !s.streams[i].connOpen
  }

  predicate Forgets(e: Event)
  {
    e.ReaderForgets? || e.WaiterForgets?
  }

  lemma TakenStays(s: State, e: Event, i: nat, j: nat)
    requires Enabled(s, e) && i < |s.streams| && j < |s.streams| && !(Forgets(e) && e.i == j)
    requires s.streams[j].reader == Quitting(CloseConn(i)) || s.streams[j].waiter == Forgetting(CloseConn(i))
    ensures Taken(Apply(s, e), i)
  {
    var t := Apply(s, e);
    EntryLength(s, e);
    assert s.streams[j].reader == Quitting(CloseConn(i)) ==> t.streams[j].reader == Quitting(CloseConn(i));
    assert s.streams[j].waiter == Forgetting(CloseConn(i)) ==> t.streams[j].waiter == Forgetting(CloseConn(i));
  }

  lemma EntryLength(s: State, e: Event)
    requires Enabled(s, e)
    ensures |Apply(s, e).streams| == |s.streams| + if e.Register? then 1 else 0
  {
  }

  lemma ForgetAbandonsNone(s: State, e: Event, i: nat)
    requires Forgets(e) && Enabled(s, e) && NotAbandoned(s, i)
    ensures NotAbandoned(Apply(s, e), i)
  {
    var t := Apply(s, e);
    EntryLength(s, e);
    if i < |s.streams| {
      if s.entry == Some(i) && t.entry != s.entry {
        assert t.streams[e.i].reader == Quitting(CloseConn(i)) || t.streams[e.i].waiter == Forgetting(CloseConn(i));
      } else if !s.streams[i].connOpen {
        assert !t.streams[i].connOpen;
      } else if Taken(s, i) {
        var j :| 0 <= j < |s.streams|
          && (s.streams[j].reader == Quitting(CloseConn(i)) || s.streams[j].waiter == Forgetting(CloseConn(i)));
        if j != e.i {
          TakenStays(s, e, i, j);
        } else if !(e.ReaderForgets? && s.streams[j].reader == Quitting(CloseConn(i)))
               && !(e.WaiterForgets? && s.streams[j].waiter == Forgetting(CloseConn(i))) {
          assert t.streams[j].reader == Quitting(CloseConn(i)) || t.streams[j].waiter == Forgetting(CloseConn(i));
        }
      }
    }
  }

  lemma OthersAbandonNone(s: State, e: Event, i: nat)
    requires !Forgets(e) && Enabled(s, e) && NotAbandoned(s, i)
    ensures NotAbandoned(Apply(s, e), i)
  {
    var t := Apply(s, e);
    EntryLength(s, e);
    if i < |s.streams| {
      if s.entry == Some(i) {
        assert t.entry == s.entry;
      } else if !s.streams[i].connOpen {
        assert !t.streams[i].connOpen;
      } else {
        var j :| 0 <= j < |s.streams|
          && (s.streams[j].reader == Quitting(CloseConn(i)) || s.streams[j].waiter == Forgetting(CloseConn(i)));
        TakenStays(s, e, i, j);
      }
    }
  }

  /** In any run, a stream that the map holds no more has its connection closed, or is in the
      hands of a goroutine about to close it: registering never drops a live stream. */
  lemma NoStreamAbandoned(trace: seq<State>, k: nat, i: nat)
    requires IsAnyRun(trace) && k < |trace|
    ensures NotAbandoned(trace[k], i)
  {
    var inv := s => NotAbandoned(s, i);
    forall s, s' | inv(s) && AnyNext(s, s')
      ensures inv(s')
    {
      var e :| Enabled(s, e) && s' == Apply(s, e);
      if Forgets(e) {
        ForgetAbandonsNone(s, e, i);
      } else {
        OthersAbandonNone(s, e, i);
      }
    }
    InvariantHolds(s => s == Start, AnyNext, inv, trace, k);
  }

  // ---- what can come of a write ----

  lemma GoAny(s: State, e: Event) returns (t: State)
    requires Enabled(s, e) && OutInv(s)
    ensures t == Apply(s, e) && Reaches(AnyNext, s, t) && OutInv(t)
  {
    t := Apply(s, e);
    assert AnyNext(s, t);
    ReachesSelf(AnyNext, s);
    ReachesStep(AnyNext, s, s, t);
    StepKeepsOut(s, e);
  }

  /** t is s but for the out channel of stream i, on which nothing was added or closed. */
  predicate OnlyWriter(s: State, t: State, i: nat)
    requires i < |s.streams|
  {
    && t.entry == s.entry && t.writes == s.writes && |t.streams| == |s.streams|
    && t.streams == s.streams[i := s.streams[i].(out := t.streams[i].out)]
    && t.streams[i].out.entered == s.streams[i].out.entered && t.streams[i].out.closes == s.streams[i].out.closes
  }

  /** Nothing is queued or in the writer's hands, and the wire holds all that entered. */
  ghost predicate Flushed(o: Outbound)
  {
    o.writer.Ranging? && o.queue == [] && o.drained == o.entered && o.wire == EncodeAll(o.entered)
  }

  lemma {:induction false} WriterFlushes(s: State, i: nat) returns (t: State)
    requires OutInv(s) && i < |s.streams| && !s.streams[i].out.writer.WriterDone?
    ensures Reaches(AnyNext, s, t) && OutInv(t) && OnlyWriter(s, t, i) && Flushed(t.streams[i].out)
    decreases |s.streams[i].out.queue|, if s.streams[i].out.writer.Sending? then 1 else 0
  {
    var o := s.streams[i].out;
    assert OutboundOk(o);
    if o.writer.Sending? {
      var u := GoAny(s, WriteDone(i));
      t := WriterFlushes(u, i);
      ReachesTrans(AnyNext, s, u, t);
    } else if o.queue != [] {
      var u := GoAny(s, TakeOut(i));
      t := WriterFlushes(u, i);
      ReachesTrans(AnyNext, s, u, t);
    } else {
      ReachesSelf(AnyNext, s);
      t := s;
    }
  }

  /** As long as its writer has not failed, all that entered a stream can get across: in any
      run, from any moment, a far side whose reads are filled then takes every message. */
  lemma EnteredCanArrive(trace: seq<State>, k: nat, i: nat, script: seq<Outcome>) returns (t: State)
    requires IsAnyRun(trace) && k < |trace| && i < |trace[k].streams|
    requires !trace[k].streams[i].out.writer.WriterDone? && Filled(trace[k].streams[i].out.entered, script)
    ensures Reaches(AnyNext, trace[k], t) && i < |t.streams|
    ensures ReadAll(t.streams[i].out.wire, script) == trace[k].streams[i].out.entered
  {
    AnyRunKeepsOut(trace, k);
    t := WriterFlushes(trace[k], i);
    ReaderGetsAllIff(trace[k].streams[i].out.entered, script);
  }

  /** A message whose write failed may have arrived all the same: the connection may have
      taken every byte of it. */
  lemma FailedWriteMayArrive(trace: seq<State>, k: nat, i: nat) returns (t: State)
    requires IsAnyRun(trace) && k < |trace| && i < |trace[k].streams| && trace[k].streams[i].out.writer.Sending?
    ensures Reaches(AnyNext, trace[k], t) && i < |t.streams| && t.streams[i].out.writer.WriterDone?
    ensures t.streams[i].out.wire == EncodeAll(trace[k].streams[i].out.drained)
  {
    AnyRunKeepsOut(trace, k);
    var o := trace[k].streams[i].out;
    assert OutboundOk(o);
    var last := |o.drained| - 1;
    assert o.drained == o.drained[..last] + [o.writer.m];
    EncodeAllSnoc(o.drained[..last], o.writer.m);
    t := GoAny(trace[k], WriteFails(i, HEADER_LENGTH + |o.writer.m.data|));
    assert Encode(o.writer.m)[..HEADER_LENGTH + |o.writer.m.data|] == Encode(o.writer.m);
  }

  /** A call of write can come to its end: with nil if it was sent, or if the stream it found
      is open and its writer has not failed; with gone if that stream is closed. */
  lemma WriteCanReturn(trace: seq<State>, k: nat, w: nat) returns (t: State)
    requires IsAnyRun(trace) && k < |trace| && w in trace[k].writes
    requires trace[k].writes[w].Loaded? || trace[k].writes[w].Sent?
    requires trace[k].writes[w].stream < |trace[k].streams|
    requires trace[k].writes[w].Loaded? && trace[k].streams[trace[k].writes[w].stream].out.closes == 0 ==>
      !trace[k].streams[trace[k].writes[w].stream].out.writer.WriterDone?
    ensures var x := trace[k].writes[w];
      && Reaches(AnyNext, trace[k], t) && w in t.writes
      && if x.Loaded? && trace[k].streams[x.stream].out.closes > 0
         then t.writes[w] == ReturnedGone(x.m, Some(x.stream))
         else t.writes[w].ReturnedNil? && t.writes[w].m == x.m && t.writes[w].stream == x.stream
  {
    AnyRunKeepsOut(trace, k);
    var s := trace[k];
    var x := s.writes[w];
    if x.Sent? {
      t := GoAny(s, Return(w));
    } else if s.streams[x.stream].out.closes > 0 {
      t := GoAny(s, PushPanics(w));
    } else {
      var u := WriterFlushes(s, x.stream);
      t := GoAny(u, Push(w));
      ReachesTrans(AnyNext, s, u, t);
      u := GoAny(t, Return(w));
      ReachesTrans(AnyNext, s, t, u);
      t := u;
    }
  }

  // ---- the goroutines of a stream, when the peer is not registered too early ----

  /** The stage of stream i, which the map holds iff held. */
  predicate StageOk(i: nat, c: Stream, held: bool)
  {
    match c.reader
    case Reading => held && c.connOpen && c.inCloses == 0 && c.out.closes == 0 && c.waiter.InWait?
    case Delivering(_) => held && c.connOpen && c.inCloses == 0 && c.out.closes == 0 && c.waiter.InWait?
    case Quitting(LookUp) => held && c.connOpen && c.inCloses == 0 && c.out.closes == 0 && c.waiter.InWait?
    case Quitting(CloseConn(t)) => !held && t == i && c.inCloses == 0 && c.out.closes == 0 && c.waiter.InWait?
    case Quitting(CloseIn(t)) =>
      !held && t == i && !c.connOpen && c.inCloses == 0 && c.out.closes == 0 && c.waiter.InWait?
    case Quitting(CloseOut(t)) =>
      !held && t == i && !c.connOpen && c.inCloses == 1 && c.out.closes == 0 && c.waiter.InWait?
    case ReaderDone => !held && !c.connOpen && c.inCloses == 1 && c.out.closes == 1
                       && (!c.waiter.InWait? ==> c.out.writer.WriterDone?)
                       && (c.waiter.Forgetting? ==> c.waiter.f.LookUp?)
    case ReaderPanicked => false
  }

  /** The message the reader has read and not put on in yet. */
  function InHand(r: Reader): seq<Message>
  {
    if r.Delivering? then [r.m] else []
  }

  predicate InboundOk(c: Stream)
  {
    c.arrived == c.consumed + c.inQueue + InHand(c.reader) && |c.inQueue| <= CAPACITY
  }

  predicate StreamOk(i: nat, c: Stream, held: bool)
  {
    StageOk(i, c, held) && InboundOk(c)
  }

  predicate EntryOk(s: State)
  {
    s.entry.Some? ==> s.entry.value + 1 == |s.streams|
  }

  ghost predicate EarlierFinished(s: State)
  {
    forall i :: 0 <= i < |s.streams| - 1 ==> Finished(s.streams[i])
  }

  ghost predicate StreamsOk(s: State)
  {
    forall i :: 0 <= i < |s.streams| ==> StreamOk(i, s.streams[i], s.entry == Some(i))
  }

  ghost predicate Inv(s: State)
  {
    EntryOk(s) && EarlierFinished(s) && StreamsOk(s) && OutInv(s)
  }

  /** The stream whose own goroutine, or whose out channel, the event concerns. */
  function Subject(s: State, e: Event): nat
    requires Enabled(s, e)
  {
    match e
    case Register => |s.streams|
    case Load(_, _) => |s.streams|
    case Push(w) => s.writes[w].stream
    case PushPanics(w) => s.writes[w].stream
    case Return(w) => s.writes[w].stream
    case _ => e.i
  }

  lemma ForgetsOwnStream(s: State, e: Event)
    requires (e.ReaderForgets? || e.WaiterForgets?) && Enabled(s, e) && Inv(s)
    ensures s.entry.None? || s.entry.value == e.i
  {
    assert StreamOk(e.i, s.streams[e.i], s.entry == Some(e.i));
    assert e.i < |s.streams| - 1 ==> Finished(s.streams[e.i]);
  }

  /** A step changes no stream but its subject: with the discipline, even forget, which
      goes by peer, only ever meets the stream it was started for. */
  lemma OnlySubjectChanges(s: State, e: Event, j: nat)
    requires Enabled(s, e) && Inv(s) && j < |s.streams| && j != Subject(s, e)
    ensures j < |Apply(s, e).streams| && Apply(s, e).streams[j] == s.streams[j]
    ensures !e.Register? ==> (Apply(s, e).entry == Some(j) <==> s.entry == Some(j))
  {
    if e.ReaderForgets? || e.WaiterForgets? {
      ForgetsOwnStream(s, e);
    }
  }

  lemma ForgetterStaysOk(s: State, e: Event)
    requires (e.ReaderForgets? || e.WaiterForgets?) && Enabled(s, e) && Inv(s)
    ensures StreamOk(e.i, Apply(s, e).streams[e.i], Apply(s, e).entry == Some(e.i))
  {
    assert StreamOk(e.i, s.streams[e.i], s.entry == Some(e.i));
    ForgetsOwnStream(s, e);
  }

  lemma WrittenStaysOk(s: State, e: Event)
    requires WriteEvent(e) && Enabled(s, e) && Inv(s)
    ensures Subject(s, e) < |Apply(s, e).streams|
    ensures StreamOk(Subject(s, e), Apply(s, e).streams[Subject(s, e)], Apply(s, e).entry == Some(Subject(s, e)))
  {
    assert WriteOk(s, s.writes[e.w]);
    assert StreamOk(Subject(s, e), s.streams[Subject(s, e)], s.entry == Some(Subject(s, e)));
  }

  lemma ConsumeOk(i: nat, c: Stream, held: bool)
    requires StreamOk(i, c, held) && c.inQueue != []
    ensures StreamOk(i, Consume(c), held)
  {
    assert c.inQueue == [c.inQueue[0]] + c.inQueue[1..];
  }

  predicate InboundEvent(e: Event)
  {
    e.Arrives? || e.Deliver?
  }

  lemma InboundStaysOk(s: State, e: Event)
    requires InboundEvent(e) && Enabled(s, e) && Inv(s)
    ensures StreamOk(e.i, Apply(s, e).streams[e.i], Apply(s, e).entry == Some(e.i))
  {
    assert StreamOk(e.i, s.streams[e.i], s.entry == Some(e.i));
  }

  lemma WorkerStaysOk(s: State, e: Event)
    requires e.TakeIn? || e.ReadFails? || e.WaitEnds? || WriterEvent(e)
    requires Enabled(s, e) && Inv(s)
    ensures StreamOk(e.i, Apply(s, e).streams[e.i], Apply(s, e).entry == Some(e.i))
  {
    assert StreamOk(e.i, s.streams[e.i], s.entry == Some(e.i));
    if e.TakeIn? {
      ConsumeOk(e.i, s.streams[e.i], s.entry == Some(e.i));
    }
  }

  lemma SubjectStaysOk(s: State, e: Event)
    requires Enabled(s, e) && Inv(s) && Subject(s, e) < |s.streams|
    ensures Subject(s, e) < |Apply(s, e).streams|
    ensures StreamOk(Subject(s, e), Apply(s, e).streams[Subject(s, e)], Apply(s, e).entry == Some(Subject(s, e)))
  {
    if e.ReaderForgets? || e.WaiterForgets? {
      ForgetterStaysOk(s, e);
    } else if WriteEvent(e) {
      WrittenStaysOk(s, e);
    } else if InboundEvent(e) {
      InboundStaysOk(s, e);
    } else {
      WorkerStaysOk(s, e);
    }
  }

  lemma StreamStaysOk(s: State, e: Event, j: nat)
    requires Enabled(s, e) && Disciplined(s, e) && Inv(s) && j < |Apply(s, e).streams|
    ensures StreamOk(j, Apply(s, e).streams[j], Apply(s, e).entry == Some(j))
  {
    if e.Register? {
      if j < |s.streams| {
        assert StreamOk(j, s.streams[j], s.entry == Some(j));
      }
    } else if j == Subject(s, e) {
      SubjectStaysOk(s, e);
    } else {
      OnlySubjectChanges(s, e, j);
    }
  }

  lemma SubjectStaysFinished(s: State, e: Event)
    requires Enabled(s, e) && Inv(s) && Subject(s, e) < |s.streams| && Finished(s.streams[Subject(s, e)])
    ensures Subject(s, e) < |Apply(s, e).streams| && Finished(Apply(s, e).streams[Subject(s, e)])
  {
  }

  lemma FinishedStays(s: State, e: Event, j: nat)
    requires Enabled(s, e) && Inv(s) && j < |s.streams| && Finished(s.streams[j])
    ensures j < |Apply(s, e).streams| && Finished(Apply(s, e).streams[j])
  {
    if j == Subject(s, e) {
      SubjectStaysFinished(s, e);
    } else {
      OnlySubjectChanges(s, e, j);
    }
  }

  lemma EntryStaysOk(s: State, e: Event)
    requires Enabled(s, e) && Inv(s)
    ensures EntryOk(Apply(s, e))
  {
    EntryStaysExisting(s, e);
    if e.ReaderForgets? || e.WaiterForgets? {
      ForgetSteps(s, e, e.i);
    }
  }

  lemma StreamsStayOk(s: State, e: Event)
    requires Enabled(s, e) && Disciplined(s, e) && Inv(s)
    ensures StreamsOk(Apply(s, e))
  {
    forall j | 0 <= j < |Apply(s, e).streams|
      ensures StreamOk(j, Apply(s, e).streams[j], Apply(s, e).entry == Some(j))
    {
      StreamStaysOk(s, e, j);
    }
  }

  lemma EarlierStayFinished(s: State, e: Event)
    requires Enabled(s, e) && Disciplined(s, e) && Inv(s)
    ensures EarlierFinished(Apply(s, e))
  {
    EntryStaysExisting(s, e);
    forall j | 0 <= j < |Apply(s, e).streams| - 1
      ensures Finished(Apply(s, e).streams[j])
    {
      FinishedStays(s, e, j);
    }
  }

  lemma StepKeepsInv(s: State, e: Event)
    requires Enabled(s, e) && Disciplined(s, e) && Inv(s)
    ensures Inv(Apply(s, e))
  {
    EntryStaysOk(s, e);
    EarlierStayFinished(s, e);
    StreamsStayOk(s, e);
    StepKeepsOut(s, e);
  }

  lemma NextKeepsInv()
    ensures forall s, s' :: Inv(s) && Next(s, s') ==> Inv(s')
  {
    forall s, s' | Inv(s) && Next(s, s')
      ensures Inv(s')
    {
      var e :| Enabled(s, e) && Disciplined(s, e) && s' == Apply(s, e);
      StepKeepsInv(s, e);
    }
  }

  lemma RunKeepsInv(trace: seq<State>, k: nat)
    requires IsChannelRun(trace) && k < |trace|
    ensures Inv(trace[k])
  {
    NextKeepsInv();
    InvariantHolds(s => s == Start, Next, Inv, trace, k);
  }

  // ---- results ----

  /** Each channel is closed at most once, exactly once as soon as the reader has finished,
      and never sent on by the reader after its close; what the reader read reaches the
      consumer of in, and what entered out reaches the writer, in order and without loss. */
  predicate Sound(c: Stream)
  {
    && c.inCloses <= 1 && c.out.closes <= 1
    && (c.reader.ReaderDone? ==> c.inCloses == 1 && c.out.closes == 1 && !c.connOpen)
    && (c.inCloses > 0 ==> !c.reader.Reading? && !c.reader.Delivering?)
    && !c.reader.ReaderPanicked?
    && c.arrived == c.consumed + c.inQueue + InHand(c.reader)
    && c.out.entered == c.out.drained + c.out.queue
  }

  /** Every stream of every disciplined run is sound. */
  lemma ClosedExactlyOnce(trace: seq<State>, k: nat, i: nat)
    requires IsChannelRun(trace) && k < |trace| && i < |trace[k].streams|
    ensures Sound(trace[k].streams[i])
  {
    RunKeepsInv(trace, k);
    assert StreamOk(i, trace[k].streams[i], trace[k].entry == Some(i)) && OutboundOk(trace[k].streams[i].out);
  }

  // ---- exactly when registering again is safe ----

  /** A stream whose reader has a message in hand. */
  function Busy(m: Message): Stream
  {
    Fresh.(reader := Delivering(m), arrived := [m])
  }

  /** The map holds a busy stream, and the goroutines of the one before it, o, which the
      map no longer holds, are not all done. */
  predicate Stale(s: State, o: nat, m: Message)
  {
    && |s.streams| == o + 2 && s.entry == Some(o + 1) && s.streams[o + 1] == Busy(m)
    && StageOk(o, s.streams[o], false) && !s.streams[o].waiter.WaiterDone?
  }

  lemma Go(a: State, s: State, e: Event) returns (s': State)
    requires Reaches(Next, a, s) && Enabled(s, e) && !e.Register?
    ensures s' == Apply(s, e) && Reaches(Next, a, s')
  {
    s' := Apply(s, e);
    assert Next(s, s');
    ReachesStep(Next, a, s, s');
  }

  function StepsLeft(r: Reader): nat
  {
    match r
    case Quitting(CloseConn(_)) => 3
    case Quitting(CloseIn(_)) => 2
    case Quitting(CloseOut(_)) => 1
    case _ => 0
  }

  lemma {:induction false} StaleReaderEnds(a: State, s: State, o: nat, m: Message) returns (s': State)
    requires Reaches(Next, a, s) && Stale(s, o, m)
    ensures Reaches(Next, a, s') && Stale(s', o, m) && s'.streams[o].reader.ReaderDone?
    decreases StepsLeft(s.streams[o].reader)
  {
    s' := s;
    if s.streams[o].reader.Quitting? {
      s' := Go(a, s, ReaderForgets(o));
      s' := StaleReaderEnds(a, s', o, m);
    }
  }

  lemma StaleWriterEnds(a: State, s: State, o: nat, m: Message) returns (s': State)
    requires Reaches(Next, a, s) && Stale(s, o, m) && s.streams[o].reader.ReaderDone?
    ensures Reaches(Next, a, s') && Stale(s', o, m)
    ensures s'.streams[o].reader.ReaderDone? && s'.streams[o].out.writer.WriterDone?
  {
    s' := s;
    if s'.streams[o].out.writer.Ranging? && s'.streams[o].out.queue != [] {
      s' := Go(a, s', TakeOut(o));
    }
    if s'.streams[o].out.writer.Ranging? {
      s' := Go(a, s', RangeEnds(o));
    } else if s'.streams[o].out.writer.Sending? {
      s' := Go(a, s', WriteFails(o, 0));
    }
  }

  /** The waiter of the old stream finds the new one in the map and closes its channels. */
  lemma StaleWaiterForgets(a: State, s: State, o: nat, m: Message) returns (s': State)
    requires Reaches(Next, a, s) && Stale(s, o, m)
    requires s.streams[o].reader.ReaderDone? && s.streams[o].out.writer.WriterDone?
    ensures Reaches(Next, a, s') && |s'.streams| == o + 2
    ensures s'.streams[o + 1].reader.Delivering? && s'.streams[o + 1].inCloses == 1
  {
    s' := s;
    if s.streams[o].waiter.InWait? {
      s' := Go(a, s, WaitEnds(o));
    }
    s' := Go(a, s', WaiterForgets(o));
    s' := Go(a, s', WaiterForgets(o));
    s' := Go(a, s', WaiterForgets(o));
  }

  lemma StaleStreamBreaksNew(a: State, s: State, o: nat, m: Message) returns (s': State)
    requires Reaches(Next, a, s) && Stale(s, o, m)
    ensures Reaches(Next, a, s') && |s'.streams| == o + 2 && s'.streams[o + 1].reader.ReaderPanicked?
  {
    s' := StaleReaderEnds(a, s, o, m);
    s' := StaleWriterEnds(a, s', o, m);
    s' := StaleWaiterForgets(a, s', o, m);
    s' := Go(a, s', Deliver(o + 1));
  }

  ghost predicate AllSound(s: State)
  {
    forall i :: 0 <= i < |s.streams| ==> Sound(s.streams[i])
  }

  /** Only the last stream can have goroutines left. */
  lemma LastUnfinished(s: State)
    requires Inv(s) && s.entry.None? && !AllFinished(s)
    ensures |s.streams| > 0
    ensures var o := |s.streams| - 1; StageOk(o, s.streams[o], false) && !s.streams[o].waiter.WaiterDone?
  {
    var i: nat :| i < |s.streams| && !Finished(s.streams[i]);
    assert StreamOk(i, s.streams[i], s.entry == Some(i));
  }

  lemma NewIsStale(s: State, m: Message)
    requires |s.streams| > 0 && s.entry.None?
    requires var o := |s.streams| - 1; StageOk(o, s.streams[o], false) && !s.streams[o].waiter.WaiterDone?
    ensures Enabled(Apply(s, Register), Arrives(|s.streams|, m))
    ensures Stale(Apply(Apply(s, Register), Arrives(|s.streams|, m)), |s.streams| - 1, m)
  {
    var s1 := Apply(s, Register);
    assert s1.streams[|s.streams|] == Fresh && Fresh.arrived + [m] == [m];
  }

  lemma UnfinishedBreaksNew(s: State, m: Message) returns (s': State)
    requires Inv(s) && s.entry.None? && !AllFinished(s)
    ensures Reaches(Next, Apply(s, Register), s')
    ensures |s'.streams| == |s.streams| + 1 && s'.streams[|s.streams|].reader.ReaderPanicked?
  {
    LastUnfinished(s);
    NewIsStale(s, m);
    ReachesSelf(Next, Apply(s, Register));
    s' := Go(Apply(s, Register), Apply(s, Register), Arrives(|s.streams|, m));
    s' := StaleStreamBreaksNew(Apply(s, Register), s', |s.streams| - 1, m);
  }

  lemma FinishedKeepsNew(s: State, s': State)
    requires Inv(s) && s.entry.None? && AllFinished(s) && Reaches(Next, Apply(s, Register), s')
    ensures AllSound(s')
  {
    StepKeepsInv(s, Register);
    NextKeepsInv();
    ReachesKeeps(Next, Inv, Apply(s, Register), s');
    forall i | 0 <= i < |s'.streams|
      ensures Sound(s'.streams[i])
    {
      assert StreamOk(i, s'.streams[i], s'.entry == Some(i)) && OutboundOk(s'.streams[i].out);
    }
  }

  /** The discipline is exact.  Wherever a disciplined run has left the peer unregistered,
      registering it leaves every stream sound in all that may follow, later registrations
      being disciplined, iff the goroutines of all earlier streams are done; otherwise some
      continuation makes the new reader send on a closed channel, whatever the first
      message is. */
  lemma RegisterSafeIff(trace: seq<State>, k: nat, m: Message)
    requires IsChannelRun(trace) && k < |trace| && trace[k].entry.None?
    ensures AllFinished(trace[k]) <==> forall s' :: Reaches(Next, Apply(trace[k], Register), s') ==> AllSound(s')
    ensures !AllFinished(trace[k]) ==>
      exists s' :: Reaches(Next, Apply(trace[k], Register), s')
        && |s'.streams| == |trace[k].streams| + 1 && s'.streams[|trace[k].streams|].reader.ReaderPanicked?
  {
    RunKeepsInv(trace, k);
    if AllFinished(trace[k]) {
      forall s' | Reaches(Next, Apply(trace[k], Register), s')
        ensures AllSound(s')
      {
        FinishedKeepsNew(trace[k], s');
      }
    } else {
      var s' := UnfinishedBreaksNew(trace[k], m);
      assert !Sound(s'.streams[|trace[k].streams|]);
    }
  }

  // ---- every stream can come to its end ----

  lemma GoOn(s: State, e: Event) returns (t: State)
    requires Inv(s) && Enabled(s, e) && !e.Register?
    ensures t == Apply(s, e) && Reaches(Next, s, t) && Inv(t) && |t.streams| == |s.streams|
  {
    ReachesSelf(Next, s);
    t := Go(s, s, e);
    StepKeepsInv(s, e);
    EntryStaysExisting(s, e);
  }

  /** o is the last stream, and the map holds it or none. */
  predicate Last(s: State, o: nat)
  {
    && |s.streams| == o + 1 && (s.entry.None? || s.entry == Some(o))
    && StageOk(o, s.streams[o], s.entry == Some(o))
  }

  /** t comes of s, which comes of a, by steps of stream o alone. */
  ghost predicate Driven(a: State, s: State, t: State, o: nat)
    requires o < |s.streams|
  {
    Reaches(Next, a, t) && Last(t, o) && t.streams[..o] == s.streams[..o]
  }

  function ReaderLeft(r: Reader): nat
  {
    match r
    case Delivering(_) => 7
    case Reading => 6
    case Quitting(LookUp) => 5
    case Quitting(CloseConn(_)) => 4
    case Quitting(CloseIn(_)) => 3
    case Quitting(CloseOut(_)) => 2
    case _ => 0
  }

  /** What the reader does next if it gets nothing more to read. */
  function ReaderStep(o: nat, c: Stream): Event
  {
    if c.reader.Quitting? then ReaderForgets(o) else if c.reader.Reading? then ReadFails(o)
    else if |c.inQueue| < CAPACITY then Deliver(o) else TakeIn(o)
  }

  lemma ReaderGoesOn(s: State, o: nat)
    requires Last(s, o) && !s.streams[o].reader.ReaderDone?
    ensures var e := ReaderStep(o, s.streams[o]);
      && Enabled(s, e) && Last(Apply(s, e), o) && Apply(s, e).streams[..o] == s.streams[..o]
      && var r, r' := s.streams[o].reader, Apply(s, e).streams[o].reader;
         ReaderLeft(r') < ReaderLeft(r) || (r' == r && |Apply(s, e).streams[o].inQueue| < |s.streams[o].inQueue|)
  {
  }

  /** The reader of the last stream closes what it has to. */
  lemma {:induction false} ReaderCanEnd(a: State, s: State, o: nat) returns (t: State)
    requires Reaches(Next, a, s) && Last(s, o)
    ensures Driven(a, s, t, o) && t.streams[o].reader.ReaderDone?
    decreases ReaderLeft(s.streams[o].reader), |s.streams[o].inQueue|
  {
    t := s;
    if !s.streams[o].reader.ReaderDone? {
      ReaderGoesOn(s, o);
      t := Go(a, s, ReaderStep(o, s.streams[o]));
      t := ReaderCanEnd(a, t, o);
    }
  }

  /** Its writer fails, or has nothing more to write. */
  lemma WriterCanEnd(a: State, s: State, o: nat) returns (t: State)
    requires Reaches(Next, a, s) && Last(s, o) && s.streams[o].reader.ReaderDone?
    ensures Driven(a, s, t, o) && t.streams[o].reader.ReaderDone? && t.streams[o].out.writer.WriterDone?
  {
    t := s;
    if t.streams[o].out.writer.Ranging? && t.streams[o].out.queue != [] {
      t := Go(a, t, TakeOut(o));
    }
    if t.streams[o].out.writer.Ranging? {
      t := Go(a, t, RangeEnds(o));
    } else if t.streams[o].out.writer.Sending? {
      t := Go(a, t, WriteFails(o, 0));
    }
  }

  /** Its waiter finds nothing in the map to forget. */
  lemma WaiterCanEnd(a: State, s: State, o: nat) returns (t: State)
    requires Reaches(Next, a, s) && Last(s, o)
    requires s.streams[o].reader.ReaderDone? && s.streams[o].out.writer.WriterDone?
    ensures Driven(a, s, t, o) && Finished(t.streams[o]) && t.entry.None?
  {
    t := s;
    if t.streams[o].waiter.InWait? {
      t := Go(a, t, WaitEnds(o));
    }
    if t.streams[o].waiter.Forgetting? {
      t := Go(a, t, WaiterForgets(o));
    }
  }

  lemma LastStreamCanEnd(s: State, o: nat) returns (t: State)
    requires Last(s, o)
    ensures Driven(s, s, t, o) && Finished(t.streams[o]) && t.entry.None?
  {
    ReachesSelf(Next, s);
    t := ReaderCanEnd(s, s, o);
    t := WriterCanEnd(s, t, o);
    t := WaiterCanEnd(s, t, o);
  }

  lemma InvLast(s: State)
    requires Inv(s) && s.streams != []
    ensures Last(s, |s.streams| - 1)
  {
    assert StreamOk(|s.streams| - 1, s.streams[|s.streams| - 1], s.entry == Some(|s.streams| - 1));
  }

  lemma EarlierAndLast(s: State, t: State, o: nat)
    requires EarlierFinished(s) && |s.streams| == |t.streams| == o + 1
    requires t.streams[..o] == s.streams[..o] && Finished(t.streams[o])
    ensures AllFinished(t)
  {
    forall i | 0 <= i < o
      ensures Finished(t.streams[i])
    {
      assert t.streams[..o][i] == s.streams[..o][i];
    }
  }

  lemma InvCanFinish(s: State) returns (t: State)
    requires Inv(s)
    ensures Reaches(Next, s, t) && AllFinished(t) && t.entry.None? && |t.streams| == |s.streams|
  {
    if s.streams == [] {
      ReachesSelf(Next, s);
      t := s;
    } else {
      InvLast(s);
      t := LastStreamCanEnd(s, |s.streams| - 1);
      EarlierAndLast(s, t, |s.streams| - 1);
    }
  }

  /** From every state of every disciplined run the peer can come to have no stream and no
      goroutines, and so to be registered again safely. */
  lemma CanFinish(trace: seq<State>, k: nat) returns (t: State)
    requires IsChannelRun(trace) && k < |trace|
    ensures Reaches(Next, trace[k], t) && AllFinished(t) && t.entry.None? && |t.streams| == |trace[k].streams|
  {
    RunKeepsInv(trace, k);
    t := InvCanFinish(trace[k]);
  }

  /** What the reader has read can all get to the consumer of in, as long as the stream is in
      the map. */
  lemma {:induction false} InboundFlushes(s: State, i: nat) returns (t: State)
    requires Inv(s) && s.entry == Some(i)
    ensures Reaches(Next, s, t) && i < |t.streams| && i < |s.streams|
    ensures t.streams[i].arrived == t.streams[i].consumed == s.streams[i].arrived
    decreases |s.streams[i].inQueue|, if s.streams[i].reader.Delivering? then 1 else 0
  {
    var c := s.streams[i];
    assert StreamOk(i, c, true);
    if c.inQueue != [] {
      var u := GoOn(s, TakeIn(i));
      t := InboundFlushes(u, i);
      ReachesTrans(Next, s, u, t);
    } else if c.reader.Delivering? {
      var u := GoOn(s, Deliver(i));
      var v := GoOn(u, TakeIn(i));
      ReachesTrans(Next, s, u, v);
      t := InboundFlushes(v, i);
      ReachesTrans(Next, s, v, t);
    } else {
      ReachesSelf(Next, s);
      t := s;
    }
  }

  lemma ArrivedCanBeConsumed(trace: seq<State>, k: nat, i: nat) returns (t: State)
    requires IsChannelRun(trace) && k < |trace| && trace[k].entry == Some(i)
    ensures Reaches(Next, trace[k], t) && i < |t.streams| && i < |trace[k].streams|
    ensures t.streams[i].consumed == trace[k].streams[i].arrived
  {
    RunKeepsInv(trace, k);
    t := InboundFlushes(trace[k], i);
  }

  lemma Continue(trace: seq<State>, e: Event) returns (longer: seq<State>)
    requires IsAnyRun(trace) && Enabled(trace[|trace| - 1], e)
    ensures IsAnyRun(longer)
    ensures longer == trace + [Apply(trace[|trace| - 1], e)]
  {
    var s' := Apply(trace[|trace| - 1], e);
    assert AnyNext(trace[|trace| - 1], s');
    Extend(s => s == Start, AnyNext, trace, s');
    longer := trace + [s'];
  }

  /** Without the discipline it fails: a stream is forgotten by its reader, the peer is
      registered again and its reader reads a message, the old stream's waiter forgets the
      new stream, and the new reader sends on a closed channel. */
  lemma StaleForgetPanicsReader(m: Message) returns (trace: seq<State>)
    ensures IsAnyRun(trace)
    ensures var s := trace[|trace| - 1]; |s.streams| == 2 && s.streams[1].reader.ReaderPanicked?
  {
    trace := ForgottenByStaleWaiter(m);
    trace := Continue(trace, Deliver(1));
  }

  lemma ForgottenByStaleWaiter(m: Message) returns (trace: seq<State>)
    ensures IsAnyRun(trace)
    ensures var s := trace[|trace| - 1];
      |s.streams| == 2 && s.streams[1].reader.Delivering? && s.streams[1].inCloses == 1
  {
    trace := RegisteredAgain();
    trace := Continue(trace, Arrives(1, m));
    trace := Continue(trace, WaiterForgets(0));
    trace := Continue(trace, WaiterForgets(0));
    trace := Continue(trace, WaiterForgets(0));
  }

  lemma RegisteredAgain() returns (trace: seq<State>)
    ensures IsAnyRun(trace)
    ensures trace[|trace| - 1] == State(
      [Stream(false, 1, [], [], [], ReaderDone, Forgetting(LookUp), Outbound(1, [], [], [], [], WriterDone)), Fresh],
      Some(1), map[])
  {
    trace := ForgottenByReader();
    trace := Continue(trace, Register);
    trace := Continue(trace, RangeEnds(0));
    trace := Continue(trace, WaitEnds(0));
  }

  lemma ForgottenByReader() returns (trace: seq<State>)
    ensures IsAnyRun(trace)
    ensures trace[|trace| - 1] == State(
      [Stream(false, 1, [], [], [], ReaderDone, InWait, Outbound(1, [], [], [], [], Ranging))], None, map[])
  {
    trace := [Start];
    trace := Continue(trace, Register);
    trace := Continue(trace, ReadFails(0));
    trace := Continue(trace, ReaderForgets(0));
    trace := Continue(trace, ReaderForgets(0));
    trace := Continue(trace, ReaderForgets(0));
    trace := Continue(trace, ReaderForgets(0));
  }
}
