/**
 The helper that hands accepted streams from one goroutine to another and is closed by a
 third, and the teardown of the QUIC session that owns it.  Put, Run, Close, Bye and Null
 may be called any number of times by any number of goroutines, and the context may be
 cancelled at any moment.  One step is one atomic or channel operation.
 */
module MuxChannel {
  import opened Runs

  type Item = nat  // stands for an accepted stream with its link

  const CAPACITY := 32

  datatype Proc =
    | Putting(x: Item)   // Put: blocked on incoming
    | RunBegin           // Run: before the swap of started
    | Selecting          // Run: in the select
    | Carrying(x: Item)  // Run: took x, about to send it on outgoing
    | RunQuit            // Run: about to swap chClosed
    | ClosingOut         // Run: about to close outgoing
    | ByeBegin           // Bye: before the swap of closed
    | ClosingCloser      // Bye: about to close closer
    | ClosingSession     // Bye: about to close the session
    | TimeoutBegin       // closeTimeoutCh: before the swap of timeoutChClosed
    | ClosingTimeout     // closeTimeoutCh: about to close timeoutCh

  /** Put, Run and the channels between them.  outCloses: how often outgoing was closed;
      accepted, taken: all items received from incoming and from outgoing so far; runner:
      the goroutine that won the swap of started. */
  datatype Loop = Loop(
    started: bool, chClosed: bool, outCloses: nat, outgoing: seq<Item>,
    accepted: seq<Item>, taken: seq<Item>, panicked: bool, runner: nat)

  /** Close and Bye; leaver: the goroutine that won the swap of closed. */
  datatype Teardown = Teardown(closed: bool, closerCloses: nat, sessionCloses: nat, leaver: nat)

  /** closeTimeoutCh; timer: the goroutine that won the swap of timeoutChClosed. */
  datatype Timeout = Timeout(swapped: bool, closes: nat, timer: nat)

  type Procs = map<nat, Proc>

  /** offered: all items Put was ever called with.  direct: closeTimeoutCh was called other
      than by Bye. */
  datatype State = State(
    loop: Loop, bye: Teardown, timeout: Timeout, cancelled: bool, procs: Procs, offered: multiset<Item>, direct: bool)

  datatype Event =
    | Call(pid: nat, p: Proc)
    | Cancel
    | SwapStarted(pid: nat)
    | Take(pid: nat, put: nat)    // Run receives from a blocked Put
    | Push(pid: nat)              // Run: outgoing <- x
    | Notice(pid: nat)            // Run: the context or closer is done
    | SwapChClosed(pid: nat)
    | CloseOutgoing(pid: nat)
    | Consume                     // the reader of outgoing
    | SwapClosed(pid: nat)
    | CloseCloser(pid: nat)
    | CloseSession(pid: nat)
    | SwapTimedOut(pid: nat)
    | CloseTimeout(pid: nat)

  predicate Entry(p: Proc)
  {
    p.Putting? || p.RunBegin? || p.ByeBegin? || p.TimeoutBegin?
  }

  predicate At(procs: Procs, pid: nat, p: Proc)
  {
    pid in procs && procs[pid] == p
  }

  predicate Enabled(s: State, e: Event)
  {
    match e
    case Call(pid, p) => pid !in s.procs && Entry(p)
    case Cancel => true
    case SwapStarted(pid) => At(s.procs, pid, RunBegin)
    case Take(pid, put) => At(s.procs, pid, Selecting) && put in s.procs && s.procs[put].Putting?
    case Push(pid) => pid in s.procs && s.procs[pid].Carrying? && (s.loop.outCloses > 0 || |s.loop.outgoing| < CAPACITY)
    case Notice(pid) => At(s.procs, pid, Selecting) && (s.cancelled || s.bye.closerCloses > 0)
    case SwapChClosed(pid) => At(s.procs, pid, RunQuit)
    case CloseOutgoing(pid) => At(s.procs, pid, ClosingOut)
    case Consume => s.loop.outgoing != []
    case SwapClosed(pid) => At(s.procs, pid, ByeBegin)
    case CloseCloser(pid) => At(s.procs, pid, ClosingCloser)
    case CloseSession(pid) => At(s.procs, pid, ClosingSession)
    case SwapTimedOut(pid) => At(s.procs, pid, TimeoutBegin)
    case CloseTimeout(pid) => At(s.procs, pid, ClosingTimeout)
  }

  function Goto(s: State, pid: nat, p: Proc): State
  {
    s.(procs := s.procs[pid := p])
  }

  function Exit(s: State, pid: nat): State
  {
    s.(procs := s.procs - {pid})
  }

  function Apply(s: State, e: Event): State
    requires Enabled(s, e)
  {
    match e
    case Call(pid, p) =>
      Goto(s, pid, p).(offered := if p.Putting? then s.offered + multiset{p.x} else s.offered,
                       direct := s.direct || p.TimeoutBegin?)
    case Cancel => s.(cancelled := true)
    case SwapStarted(pid) =>
      if s.loop.started then Exit(s, pid)
      else Goto(s, pid, Selecting).(loop := s.loop.(started := true, runner := pid))
    case Take(pid, put) =>
      var x := s.procs[put].x;
      Goto(Exit(s, put), pid, Carrying(x)).(loop := s.loop.(accepted := s.loop.accepted + [x]))
    case Push(pid) =>
      if s.loop.outCloses > 0 then Exit(s, pid).(loop := s.loop.(panicked := true))
      else Goto(s, pid, Selecting).(loop := s.loop.(outgoing := s.loop.outgoing + [s.procs[pid].x]))
    case Notice(pid) => Goto(s, pid, RunQuit)
    case SwapChClosed(pid) =>
      if s.loop.chClosed then Exit(s, pid) else Goto(s, pid, ClosingOut).(loop := s.loop.(chClosed := true))
    case CloseOutgoing(pid) => Exit(s, pid).(loop := s.loop.(outCloses := s.loop.outCloses + 1))
    case Consume =>
      s.(loop := s.loop.(outgoing := s.loop.outgoing[1..], taken := s.loop.taken + [s.loop.outgoing[0]]))
    case SwapClosed(pid) =>
      if s.bye.closed then Exit(s, pid)
      else Goto(s, pid, ClosingCloser).(bye := s.bye.(closed := true, leaver := pid))
    case CloseCloser(pid) => Goto(s, pid, ClosingSession).(bye := s.bye.(closerCloses := s.bye.closerCloses + 1))
    case CloseSession(pid) => Goto(s, pid, TimeoutBegin).(bye := s.bye.(sessionCloses := s.bye.sessionCloses + 1))
    case SwapTimedOut(pid) =>
      if s.timeout.swapped then Exit(s, pid)
      else Goto(s, pid, ClosingTimeout).(timeout := s.timeout.(swapped := true, timer := pid))
    case CloseTimeout(pid) => Exit(s, pid).(timeout := s.timeout.(closes := s.timeout.closes + 1))
  }

  const Start := State(
    Loop(false, false, 0, [], [], [], false, 0), Teardown(false, 0, 0, 0), Timeout(false, 0, 0), false, map[],
    multiset{}, false)

  ghost predicate Next(s: State, s': State)
  {
    exists e :: Enabled(s, e) && s' == Apply(s, e)
  }

  ghost predicate IsMuxRun(trace: seq<State>)
  {
    IsRun(s => s == Start, Next, trace)
  }

  // ---- the invariant ----

  /** A run loop that won the swap of started and has not left yet. */
  predicate InLoop(p: Proc)
  {
    p.Selecting? || p.Carrying? || p.RunQuit? || p.ClosingOut?
  }

  /** The call of Bye that won the swap of closed, before the session is closed. */
  predicate TearingDown(p: Proc)
  {
    p.ClosingCloser? || p.ClosingSession?
  }

  predicate AtTimeout(p: Proc)
  {
    p.ClosingTimeout?
  }

  predicate RunnerActive(l: Loop, procs: Procs)
  {
    l.started && l.runner in procs && InLoop(procs[l.runner])
  }

  /** The item between the two channels, if any. */
  function Held(l: Loop, procs: Procs): seq<Item>
  {
    if RunnerActive(l, procs) && procs[l.runner].Carrying? then [procs[l.runner].x] else []
  }

  ghost predicate LoopInv(l: Loop, procs: Procs)
  {
    && (forall a :: a in procs && InLoop(procs[a]) ==> l.started && a == l.runner)
    && (if RunnerActive(l, procs) then l.outCloses == 0 && l.chClosed == procs[l.runner].ClosingOut?
        else l.chClosed == l.started && l.outCloses == if l.started then 1 else 0)
    && l.accepted == l.taken + l.outgoing + Held(l, procs)
    && |l.outgoing| <= CAPACITY
    && !l.panicked
  }

  predicate LeaverActive(b: Teardown, procs: Procs)
  {
    b.closed && b.leaver in procs && TearingDown(procs[b.leaver])
  }

  ghost predicate ByeInv(b: Teardown, procs: Procs)
  {
    && (forall a :: a in procs && TearingDown(procs[a]) ==> b.closed && a == b.leaver)
    && (if LeaverActive(b, procs)
        then b.sessionCloses == 0 && b.closerCloses == if procs[b.leaver].ClosingSession? then 1 else 0
        else b.sessionCloses == b.closerCloses == if b.closed then 1 else 0)
  }

  ghost predicate TimeoutInv(t: Timeout, procs: Procs)
  {
    && (forall a :: a in procs && procs[a].ClosingTimeout? ==> t.swapped && a == t.timer)
    && t.closes == if t.swapped && !At(procs, t.timer, ClosingTimeout) then 1 else 0
  }

  /** Whoever closed the session went on to close timeoutCh, unless another did. */
  predicate Followed(s: State)
  {
    s.bye.sessionCloses > 0 ==> s.timeout.swapped || At(s.procs, s.bye.leaver, TimeoutBegin)
  }

  ghost predicate Inv(s: State)
  {
    LoopInv(s.loop, s.procs) && ByeInv(s.bye, s.procs) && TimeoutInv(s.timeout, s.procs) && Followed(s)
  }

  /** Two states of the goroutines agree on those of a class. */
  ghost predicate Agree(procs: Procs, procs': Procs, among: Proc -> bool)
  {
    forall a :: (a in procs && among(procs[a])) || (a in procs' && among(procs'[a]))
                ==> a in procs && a in procs' && procs[a] == procs'[a]
  }

  predicate LoopEvent(e: Event)
  {
    e.SwapStarted? || e.Take? || e.Push? || e.Notice? || e.SwapChClosed? || e.CloseOutgoing? || e.Consume?
  }

  predicate ByeEvent(e: Event)
  {
    e.SwapClosed? || e.CloseCloser? || e.CloseSession?
  }

  predicate TimeoutEvent(e: Event)
  {
    e.SwapTimedOut? || e.CloseTimeout?
  }

  /** A new call is in none of the parts yet. */
  lemma CallApart(s: State, e: Event)
    requires e.Call? && Enabled(s, e)
    ensures var procs' := Apply(s, e).procs;
      Agree(s.procs, procs', InLoop) && Agree(s.procs, procs', TearingDown) && Agree(s.procs, procs', AtTimeout)
  {
  }

  /** Each part is changed only by its own steps. */
  lemma LoopApart(s: State, e: Event)
    requires Enabled(s, e) && !LoopEvent(e)
    ensures Apply(s, e).loop == s.loop && Agree(s.procs, Apply(s, e).procs, InLoop)
  {
    if e.Call? {
      CallApart(s, e);
    }
  }

  lemma ByeApart(s: State, e: Event)
    requires Enabled(s, e) && !ByeEvent(e)
    ensures Apply(s, e).bye == s.bye && Agree(s.procs, Apply(s, e).procs, TearingDown)
  {
    if e.Call? {
      CallApart(s, e);
    }
  }

  lemma TimeoutApart(s: State, e: Event)
    requires Enabled(s, e) && !TimeoutEvent(e)
    ensures Apply(s, e).timeout == s.timeout && Agree(s.procs, Apply(s, e).procs, AtTimeout)
  {
    if e.Call? {
      CallApart(s, e);
    }
  }

  lemma LoopEventKeepsLoop(s: State, e: Event)
    requires LoopEvent(e) && Enabled(s, e) && LoopInv(s.loop, s.procs)
    ensures LoopInv(Apply(s, e).loop, Apply(s, e).procs)
  {
    if e.Consume? {
      var l := s.loop;
      assert l.taken + l.outgoing == l.taken + [l.outgoing[0]] + l.outgoing[1..];
    }
  }

  lemma ByeEventKeepsBye(s: State, e: Event)
    requires ByeEvent(e) && Enabled(s, e) && ByeInv(s.bye, s.procs)
    ensures ByeInv(Apply(s, e).bye, Apply(s, e).procs)
  {
  }

  lemma TimeoutEventKeepsTimeout(s: State, e: Event)
    requires TimeoutEvent(e) && Enabled(s, e) && TimeoutInv(s.timeout, s.procs)
    ensures TimeoutInv(Apply(s, e).timeout, Apply(s, e).procs)
  {
  }

  lemma LoopFrame(l: Loop, procs: Procs, procs': Procs)
    requires Agree(procs, procs', InLoop) && LoopInv(l, procs)
    ensures LoopInv(l, procs')
  {
  }

  lemma ByeFrame(b: Teardown, procs: Procs, procs': Procs)
    requires Agree(procs, procs', TearingDown) && ByeInv(b, procs)
    ensures ByeInv(b, procs')
  {
  }

  lemma TimeoutFrame(t: Timeout, procs: Procs, procs': Procs)
    requires Agree(procs, procs', AtTimeout) && TimeoutInv(t, procs)
    ensures TimeoutInv(t, procs')
  {
  }

  lemma StaysFollowed(s: State, e: Event)
    requires Enabled(s, e) && ByeInv(s.bye, s.procs) && Followed(s)
    ensures Followed(Apply(s, e))
  {
  }

  lemma StepKeepsInv(s: State, e: Event)
    requires Enabled(s, e) && Inv(s)
    ensures Inv(Apply(s, e))
  {
    StaysFollowed(s, e);
    var procs' := Apply(s, e).procs;
    if LoopEvent(e) {
      LoopEventKeepsLoop(s, e);
    } else {
      LoopApart(s, e);
      LoopFrame(s.loop, s.procs, procs');
    }
    if ByeEvent(e) {
      ByeEventKeepsBye(s, e);
    } else {
      ByeApart(s, e);
      ByeFrame(s.bye, s.procs, procs');
    }
    if TimeoutEvent(e) {
      TimeoutEventKeepsTimeout(s, e);
    } else {
      TimeoutApart(s, e);
      TimeoutFrame(s.timeout, s.procs, procs');
    }
  }

  lemma NextKeepsInv()
    ensures forall s, s' :: Inv(s) && Next(s, s') ==> Inv(s')
  {
    forall s, s' | Inv(s) && Next(s, s')
      ensures Inv(s')
    {
      var e :| Enabled(s, e) && s' == Apply(s, e);
      StepKeepsInv(s, e);
    }
  }

  lemma RunKeepsInv(trace: seq<State>, k: nat)
    requires IsMuxRun(trace) && k < |trace|
    ensures Inv(trace[k])
  {
    NextKeepsInv();
    InvariantHolds(s => s == Start, Next, Inv, trace, k);
  }

  // ---- results ----

  /** At most one run loop is active, and while it is, outgoing is open: it is never sent
      on after its close.  Nothing is closed twice, and nothing panics. */
  lemma SingleLoopSingleClose(trace: seq<State>, k: nat)
    requires IsMuxRun(trace) && k < |trace|
    ensures var s := trace[k];
      && (forall a, b :: a in s.procs && b in s.procs && InLoop(s.procs[a]) && InLoop(s.procs[b]) ==> a == b)
      && (forall a :: a in s.procs && InLoop(s.procs[a]) ==> s.loop.outCloses == 0)
      && s.loop.outCloses <= 1 && s.bye.closerCloses <= 1 && s.bye.sessionCloses <= 1 && s.timeout.closes <= 1
      && !s.loop.panicked
  {
    RunKeepsInv(trace, k);
  }

  /** The items that run loops of s are carrying are exactly those of held. */
  ghost predicate InHand(s: State, held: seq<Item>)
  {
    if exists a :: a in s.procs && s.procs[a].Carrying?
    then exists a :: a in s.procs && s.procs[a].Carrying? && held == [s.procs[a].x]
    else held == []
  }

  /** First in, first out, none lost, none made up: the items accepted from Put are those
      received by the reader, then those buffered, then the one in hand. */
  lemma Conservation(trace: seq<State>, k: nat, held: seq<Item>)
    requires IsMuxRun(trace) && k < |trace| && InHand(trace[k], held)
    ensures trace[k].loop.accepted == trace[k].loop.taken + trace[k].loop.outgoing + held
  {
    RunKeepsInv(trace, k);
    assert held == Held(trace[k].loop, trace[k].procs);
  }

  /** Once every goroutine is back or blocked, be it in Put, in the select of the run loop
      or there on a full outgoing, each flag says exactly whether its close was made: one
      Bye tore the session down, and timeoutCh was closed once. */
  lemma AtRestExactlyOnce(trace: seq<State>, k: nat)
    requires IsMuxRun(trace) && k < |trace|
    requires forall a :: a in trace[k].procs ==>
      trace[k].procs[a].Putting? || trace[k].procs[a].Selecting? || trace[k].procs[a].Carrying?
    ensures var s := trace[k];
      && s.bye.closerCloses == s.bye.sessionCloses == (if s.bye.closed then 1 else 0)
      && s.timeout.closes == (if s.timeout.swapped then 1 else 0)
      && s.loop.outCloses == (if s.loop.chClosed then 1 else 0)
      && (s.bye.closed ==> s.timeout.closes == 1)
  {
    RunKeepsInv(trace, k);
  }

  // ---- what Put is given ----

  /** The calls of Put that still wait with x. */
  function Waiting(procs: Procs, x: Item): set<nat>
  {
    set a | a in procs && procs[a] == Putting(x)
  }

  predicate PutOk(s: State, x: Item)
  {
    s.offered[x] == multiset(s.loop.accepted)[x] + |Waiting(s.procs, x)|
  }

  predicate IsPutting(p: Proc)
  {
    p.Putting?
  }

  lemma OthersLeavePut(s: State, e: Event)
    requires Enabled(s, e) && !e.Take? && !(e.Call? && e.p.Putting?)
    ensures Agree(s.procs, Apply(s, e).procs, IsPutting)
    ensures Apply(s, e).offered == s.offered && Apply(s, e).loop.accepted == s.loop.accepted
  {
  }

  lemma CallWaits(s: State, e: Event, x: Item)
    requires Enabled(s, e) && e.Call? && e.p.Putting? && PutOk(s, x)
    ensures PutOk(Apply(s, e), x)
  {
    var before, after := Waiting(s.procs, x), Waiting(Apply(s, e).procs, x);
    if e.p.x == x {
      assert after == before + {e.pid};
    } else {
      assert after == before;
    }
  }

  lemma TakenOnce(accepted: seq<Item>, y: Item, x: Item)
    ensures multiset(accepted + [y])[x] == multiset(accepted)[x] + if x == y then 1 else 0
  {
  }

  lemma TakeEndsWait(s: State, e: Event, x: Item)
    requires Enabled(s, e) && e.Take? && PutOk(s, x)
    ensures PutOk(Apply(s, e), x)
  {
    var before, after := Waiting(s.procs, x), Waiting(Apply(s, e).procs, x);
    var y := s.procs[e.put].x;
    TakenOnce(s.loop.accepted, y, x);
    if y == x {
      assert e.put in before && after == before - {e.put};
    } else {
      assert after == before;
    }
  }

  lemma StepKeepsPut(s: State, e: Event, x: Item)
    requires Enabled(s, e) && PutOk(s, x)
    ensures PutOk(Apply(s, e), x)
  {
    if e.Call? && e.p.Putting? {
      CallWaits(s, e, x);
    } else if e.Take? {
      TakeEndsWait(s, e, x);
    } else {
      OthersLeavePut(s, e);
      assert Waiting(Apply(s, e).procs, x) == Waiting(s.procs, x);
    }
  }

  /** Every item Put was called with is accepted once, or still waits, in every run. */
  lemma PutOnce(trace: seq<State>, k: nat, x: Item)
    requires IsMuxRun(trace) && k < |trace|
    ensures PutOk(trace[k], x)
  {
    var inv := s => PutOk(s, x);
    forall s, s' | inv(s) && Next(s, s')
      ensures inv(s')
    {
      var e :| Enabled(s, e) && s' == Apply(s, e);
      StepKeepsPut(s, e, x);
    }
    InvariantHolds(s => s == Start, Next, inv, trace, k);
  }

  // ---- in which order things are closed ----

  /** closer before the session, the session before timeoutCh unless closeTimeoutCh was called
      by itself, and outgoing only after closer or the context. */
  ghost predicate Ordered(s: State)
  {
    && (s.bye.sessionCloses > 0 ==> s.bye.closerCloses > 0)
    && (s.timeout.swapped ==> s.direct || s.bye.sessionCloses > 0)
    && (forall a :: a in s.procs && s.procs[a].TimeoutBegin? ==> s.direct || s.bye.sessionCloses > 0)
    && (s.loop.chClosed ==> s.cancelled || s.bye.closerCloses > 0)
    && (forall a :: a in s.procs && s.procs[a].RunQuit? ==> s.cancelled || s.bye.closerCloses > 0)
    && (s.timeout.closes > 0 ==> s.timeout.swapped) && (s.loop.outCloses > 0 ==> s.loop.chClosed)
  }

  lemma StepKeepsOrder(s: State, e: Event)
    requires Enabled(s, e) && Inv(s) && Ordered(s)
    ensures Ordered(Apply(s, e))
  {
  }

  lemma ClosedInOrder(trace: seq<State>, k: nat)
    requires IsMuxRun(trace) && k < |trace|
    ensures var s := trace[k];
      && (s.bye.sessionCloses > 0 ==> s.bye.closerCloses > 0)
      && (s.timeout.closes > 0 ==> s.direct || s.bye.sessionCloses > 0)
      && (s.loop.outCloses > 0 ==> s.cancelled || s.bye.closerCloses > 0)
  {
    var inv := s => Inv(s) && Ordered(s);
    NextKeepsInv();
    forall s, s' | inv(s) && Next(s, s')
      ensures inv(s')
    {
      var e :| Enabled(s, e) && s' == Apply(s, e);
      StepKeepsOrder(s, e);
    }
    InvariantHolds(s => s == Start, Next, inv, trace, k);
  }

  // ---- every call can come to its end ----

  predicate Resting(p: Proc)
  {
    p.Putting? || p.Selecting?
  }

  function StepsLeft(p: Proc): nat
  {
    match p
    case ByeBegin => 5
    case ClosingCloser => 4
    case ClosingSession => 3
    case RunQuit => 2
    case TimeoutBegin => 2
    case Putting(_) => 0
    case Selecting => 0
    case _ => 1
  }

  function StepOf(pid: nat, p: Proc): Event
    requires !Resting(p)
  {
    match p
    case RunBegin => SwapStarted(pid)
    case Carrying(_) => Push(pid)
    case RunQuit => SwapChClosed(pid)
    case ClosingOut => CloseOutgoing(pid)
    case ByeBegin => SwapClosed(pid)
    case ClosingCloser => CloseCloser(pid)
    case ClosingSession => CloseSession(pid)
    case TimeoutBegin => SwapTimedOut(pid)
    case ClosingTimeout => CloseTimeout(pid)
  }

  /** s' is s after calls have gone on: none has begun, and nothing is undone. */
  ghost predicate Onward(s: State, s': State)
  {
    && Reaches(Next, s, s') && Inv(s') && s'.cancelled == s.cancelled && s'.loop.accepted == s.loop.accepted
    && (s.bye.closed ==> s'.bye.closed) && (s.loop.started ==> s'.loop.started)
    && s.bye.closerCloses <= s'.bye.closerCloses
    && forall a :: a in s'.procs ==> a in s.procs && (Resting(s.procs[a]) ==> s'.procs[a] == s.procs[a])
  }

  lemma OnwardSelf(s: State)
    requires Inv(s)
    ensures Onward(s, s)
  {
    ReachesSelf(Next, s);
  }

  lemma OnwardTrans(s: State, t: State, u: State)
    requires Onward(s, t) && Onward(t, u)
    ensures Onward(s, u)
  {
    ReachesTrans(Next, s, t, u);
  }

  lemma Go(s: State, e: Event) returns (s': State)
    requires Enabled(s, e) && Inv(s)
    ensures s' == Apply(s, e) && Reaches(Next, s, s') && Inv(s')
  {
    s' := Apply(s, e);
    assert Next(s, s');
    ReachesSelf(Next, s);
    ReachesStep(Next, s, s, s');
    StepKeepsInv(s, e);
  }

  /** The reader of outgoing takes what is there. */
  lemma {:induction false} Drain(s: State) returns (s': State)
    requires Inv(s)
    ensures Onward(s, s') && s'.loop.outgoing == [] && s' == s.(loop := s'.loop)
    ensures s'.loop == s.loop.(outgoing := [], taken := s'.loop.taken)
    decreases |s.loop.outgoing|
  {
    OnwardSelf(s);
    s' := s;
    if s.loop.outgoing != [] {
      var t := Go(s, Consume);
      s' := Drain(t);
      OnwardTrans(s, t, s');
    }
  }

  /** Only these come to the select of the run loop. */
  predicate Loopward(p: Proc)
  {
    p.Selecting? || p.RunBegin? || p.Carrying?
  }

  /** A call has gone on from procs to procs', and no other has moved. */
  ghost predicate Moved(procs: Procs, procs': Procs, pid: nat)
    requires pid in procs
  {
    && (forall a :: a != pid ==> (a in procs <==> a in procs') && (a in procs' ==> procs'[a] == procs[a]))
    && (pid in procs' && procs'[pid].Selecting? ==> Loopward(procs[pid]))
    && (pid in procs' && procs'[pid].Putting? ==> procs[pid].Putting?)
  }

  lemma StepAllowed(s: State, pid: nat)
    requires pid in s.procs && !Resting(s.procs[pid]) && s.loop.outgoing == []
    ensures Enabled(s, StepOf(pid, s.procs[pid]))
  {
  }

  /** ... by a step that brings it nearer to its end. */
  ghost predicate Shorter(procs: Procs, procs': Procs, pid: nat)
    requires pid in procs
  {
    && Moved(procs, procs', pid)
    && (pid in procs' ==>
          StepsLeft(procs'[pid]) < StepsLeft(procs[pid]) && (Loopward(procs'[pid]) ==> Loopward(procs[pid])))
  }

  lemma GotoShorter(procs: Procs, pid: nat, p: Proc)
    requires pid in procs && !p.Putting? && StepsLeft(p) < StepsLeft(procs[pid])
    requires Loopward(p) ==> Loopward(procs[pid])
    ensures Shorter(procs, procs[pid := p], pid)
  {
  }

  lemma ExitShorter(procs: Procs, pid: nat)
    requires pid in procs
    ensures Shorter(procs, procs - {pid}, pid)
  {
  }

  lemma StepMoves(s: State, pid: nat)
    requires pid in s.procs && !Resting(s.procs[pid]) && Enabled(s, StepOf(pid, s.procs[pid]))
    ensures Shorter(s.procs, Apply(s, StepOf(pid, s.procs[pid])).procs, pid)
  {
    ExitShorter(s.procs, pid);
    match s.procs[pid]
    case RunBegin => GotoShorter(s.procs, pid, Selecting);
    case Carrying(_) => GotoShorter(s.procs, pid, Selecting);
    case RunQuit => GotoShorter(s.procs, pid, ClosingOut);
    case ByeBegin => GotoShorter(s.procs, pid, ClosingCloser);
    case ClosingCloser => GotoShorter(s.procs, pid, ClosingSession);
    case ClosingSession => GotoShorter(s.procs, pid, TimeoutBegin);
    case TimeoutBegin => GotoShorter(s.procs, pid, ClosingTimeout);
    case _ =>
  }

  lemma StepUndoesNothing(s: State, pid: nat)
    requires pid in s.procs && !Resting(s.procs[pid]) && Enabled(s, StepOf(pid, s.procs[pid]))
    ensures var s' := Apply(s, StepOf(pid, s.procs[pid]));
      && s'.cancelled == s.cancelled && s'.loop.accepted == s.loop.accepted
      && (s.bye.closed ==> s'.bye.closed) && (s.loop.started ==> s'.loop.started)
      && s.bye.closerCloses <= s'.bye.closerCloses
  {
  }

  /** One call goes one step; a run loop with outgoing full needs a reader first. */
  lemma OneStep(s: State, pid: nat) returns (s': State)
    requires Inv(s) && pid in s.procs && !Resting(s.procs[pid]) && s.loop.outgoing == []
    ensures Onward(s, s') && Moved(s.procs, s'.procs, pid)
    ensures pid in s'.procs ==> StepsLeft(s'.procs[pid]) < StepsLeft(s.procs[pid])
    ensures pid in s'.procs && Loopward(s'.procs[pid]) ==> Loopward(s.procs[pid])
  {
    StepAllowed(s, pid);
    StepMoves(s, pid);
    StepUndoesNothing(s, pid);
    s' := Go(s, StepOf(pid, s.procs[pid]));
  }

  lemma {:induction false} OneCallEnds(s: State, pid: nat) returns (s': State)
    requires Inv(s) && pid in s.procs
    ensures Onward(s, s') && Moved(s.procs, s'.procs, pid) && s'.loop.outgoing == []
    ensures pid in s'.procs ==> Resting(s'.procs[pid])
    decreases StepsLeft(s.procs[pid])
  {
    s' := Drain(s);
    if !Resting(s.procs[pid]) {
      var t := OneStep(s', pid);
      OnwardTrans(s, s', t);
      if pid in t.procs {
        s' := OneCallEnds(t, pid);
      } else {
        s' := Drain(t);
      }
      OnwardTrans(s, t, s');
    }
  }

  function Busy(procs: Procs): set<nat>
  {
    set a | a in procs && !Resting(procs[a])
  }

  lemma {:induction false} AllCallsEnd(s: State) returns (s': State)
    requires Inv(s)
    ensures Onward(s, s') && Busy(s'.procs) == {} && s'.loop.outgoing == []
    decreases |Busy(s.procs)|
  {
    if Busy(s.procs) == {} {
      s' := Drain(s);
    } else {
      var pid :| pid in Busy(s.procs);
      var t := OneCallEnds(s, pid);
      assert Busy(t.procs) == Busy(s.procs) - {pid};
      s' := AllCallsEnd(t);
      OnwardTrans(s, t, s');
    }
  }

  /** Nothing is left but calls of Put: the loop has ended and closed outgoing, its reader has
      had every item accepted, and if Bye was called all it closes is closed. */
  ghost predicate TornDown(s: State)
  {
    && (forall a :: a in s.procs ==> s.procs[a].Putting?)
    && s.loop.taken == s.loop.accepted && s.loop.outCloses == (if s.loop.started then 1 else 0)
    && (s.bye.closed ==> s.bye.closerCloses == s.bye.sessionCloses == s.timeout.closes == 1)
  }

  lemma NoneBusy(procs: Procs)
    requires Busy(procs) == {}
    ensures forall a :: a in procs ==> Resting(procs[a])
  {
    assert forall a :: a in procs && !Resting(procs[a]) ==> a in Busy(procs);
  }

  lemma LoopEnds(s: State) returns (s': State)
    requires Inv(s) && (s.cancelled || s.bye.closerCloses > 0) && Busy(s.procs) == {} && s.loop.outgoing == []
    ensures Reaches(Next, s, s') && TornDown(s') && (s.bye.closed ==> s'.bye.closed)
    ensures s'.loop.accepted == s.loop.accepted
  {
    s' := s;
    ReachesSelf(Next, s);
    NoneBusy(s.procs);
    if pid :| pid in s.procs && s.procs[pid].Selecting? {
      var t := Go(s, Notice(pid));
      s' := OneCallEnds(t, pid);
      ReachesTrans(Next, s, t, s');
    }
  }

  /** From wherever a run has come, cancelling the context lets everything come to its end. */
  lemma CancelEnds(trace: seq<State>, k: nat) returns (s': State)
    requires IsMuxRun(trace) && k < |trace|
    ensures Reaches(Next, Apply(trace[k], Cancel), s') && TornDown(s')
    ensures s'.loop.accepted == trace[k].loop.accepted
  {
    RunKeepsInv(trace, k);
    var s := Go(trace[k], Cancel);
    var t := AllCallsEnd(s);
    s' := LoopEnds(t);
    ReachesTrans(Next, s, t, s');
  }

  /** So does a call of Bye. */
  lemma ByeEnds(trace: seq<State>, k: nat, pid: nat) returns (s': State)
    requires IsMuxRun(trace) && k < |trace| && pid !in trace[k].procs
    ensures Reaches(Next, Apply(trace[k], Call(pid, ByeBegin)), s') && TornDown(s') && s'.bye.closed
    ensures s'.loop.accepted == trace[k].loop.accepted
  {
    RunKeepsInv(trace, k);
    var s := Go(trace[k], Call(pid, ByeBegin));
    var r := Go(s, SwapClosed(pid));
    var t := AllCallsEnd(r);
    ReachesTrans(Next, s, r, t);
    assert t.bye.leaver in t.procs ==> t.bye.leaver !in Busy(t.procs);
    s' := LoopEnds(t);
    ReachesTrans(Next, s, t, s');
  }

  /** A loop that waits can take from any waiting Put, and its reader then gets the item, after
      all that were accepted before. */
  lemma PutGetsThrough(trace: seq<State>, k: nat, pid: nat, put: nat) returns (s': State)
    requires IsMuxRun(trace) && k < |trace| && At(trace[k].procs, pid, Selecting)
    requires put in trace[k].procs && trace[k].procs[put].Putting?
    ensures Reaches(Next, trace[k], s') && put !in s'.procs
    ensures s'.loop.taken == s'.loop.accepted == trace[k].loop.accepted + [trace[k].procs[put].x]
  {
    RunKeepsInv(trace, k);
    var s := Go(trace[k], Take(pid, put));
    var t := OneCallEnds(s, pid);
    ReachesTrans(Next, trace[k], s, t);
    s' := t;
  }
}
