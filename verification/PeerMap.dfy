/**
 The map of live sessions and the counter beside it.  NewPeer checks the map, waits,
 stores and then counts; Remove deletes, then uncounts, then closes the session.  These
 are separate atomic operations, so calls interleave, and two calls of NewPeer that pass
 the check together store one session over the other.
 */
module PeerMap {
  import opened BigEndian
  import opened Runs

  type Id = U64
  type Session = nat

  const WRAP: nat := 0x1_0000_0000_0000_0000

  /** made: every session ever built and the peer it is with.  entering: built, not stored
      yet.  uncounted: stored, not counted.  removed: deleted, still counted.  leaving:
      deleted and uncounted, not closed yet.  overwritten: stored over by another.
      aborted: closed before they were stored. */
  datatype State = State(
    peers: map<Id, Session>, num: U64, made: map<Session, Id>,
    entering: set<Session>, uncounted: set<Session>, removed: set<Session>, leaving: set<Session>,
    byes: multiset<Session>, overwritten: set<Session>, aborted: set<Session>)

  datatype Event =
    | Check(x: Session, id: Id)   // NewPeer: Load finds nothing, the session is built
    | Abort(x: Session)           // NewPeer: the session closed while waiting
    | Store(x: Session)
    | Count(x: Session)           // AddUint64(num, 1)
    | Delete(id: Id)              // Remove: LoadAndDelete finds a session
    | Uncount(x: Session)         // AddUint64(num, ^0)
    | Bye(x: Session)

  predicate Enabled(s: State, e: Event)
  {
    match e
    case Check(x, id) => x !in s.made && id !in s.peers
    case Abort(x) => x in s.entering
    case Store(x) => x in s.entering && x in s.made
    case Count(x) => x in s.uncounted
    case Delete(id) => id in s.peers
    case Uncount(x) => x in s.removed
    case Bye(x) => x in s.leaving
  }

  /** 64-bit addition as atomic.AddUint64 does it; adding ^0 takes one away. */
  function AddU64(a: U64, d: U64): (r: U64)
  {
    if a + d >= WRAP then a + d - WRAP else a + d
  }

  function Apply(s: State, e: Event): State
    requires Enabled(s, e)
  {
    match e
    case Check(x, id) => s.(made := s.made[x := id], entering := s.entering + {x})
    case Abort(x) => s.(entering := s.entering - {x}, aborted := s.aborted + {x})
    case Store(x) =>
      var id := s.made[x];
      s.(peers := s.peers[id := x], entering := s.entering - {x}, uncounted := s.uncounted + {x},
         overwritten := if id in s.peers then s.overwritten + {s.peers[id]} else s.overwritten)
    case Count(x) => s.(num := AddU64(s.num, 1), uncounted := s.uncounted - {x})
    case Delete(id) => s.(peers := s.peers - {id}, removed := s.removed + {s.peers[id]})
    case Uncount(x) =>
      s.(num := AddU64(s.num, 0xFFFF_FFFF_FFFF_FFFF), removed := s.removed - {x}, leaving := s.leaving + {x})
    case Bye(x) => s.(leaving := s.leaving - {x}, byes := s.byes + multiset{x})
  }

  const Start := State(map[], 0, map[], {}, {}, {}, {}, multiset{}, {}, {})

  ghost predicate Next(s: State, s': State)
  {
    exists e :: Enabled(s, e) && s' == Apply(s, e)
  }

  ghost predicate IsMapRun(trace: seq<State>)
  {
    IsRun(s => s == Start, Next, trace)
  }

  // ---- where a session can be ----

  predicate Live(s: State, x: Session)
  {
    x in s.made && s.made[x] in s.peers && s.peers[s.made[x]] == x
  }

  function Places(s: State, x: Session): nat
  {
    (if x in s.entering then 1 else 0) + (if Live(s, x) then 1 else 0) + (if x in s.removed then 1 else 0)
    + (if x in s.leaving then 1 else 0) + s.byes[x] + (if x in s.overwritten then 1 else 0)
    + (if x in s.aborted then 1 else 0)
  }

  /** A session is in one place exactly, and is counted only after it was stored. */
  predicate SessionOk(s: State, x: Session)
  {
    && Places(s, x) == (if x in s.made then 1 else 0)
    && (x in s.uncounted ==> x in s.made)
    && (x in s.entering ==> x !in s.uncounted)
  }

  ghost predicate Inv(s: State)
  {
    && (forall x :: SessionOk(s, x))
    && (forall id :: id in s.peers ==> s.peers[id] in s.made && s.made[s.peers[id]] == id)
    && Balanced(s.num, Pending(s), Sessions(s))
  }

  lemma StoreKeepsSession(s: State, y: Session, x: Session)
    requires Enabled(s, Store(y)) && Inv(s)
    ensures SessionOk(Apply(s, Store(y)), x)
  {
    assert SessionOk(s, x) && SessionOk(s, y);
    if s.made[y] in s.peers {
      assert SessionOk(s, s.peers[s.made[y]]);
    }
  }

  lemma DeleteKeepsSession(s: State, id: Id, x: Session)
    requires Enabled(s, Delete(id)) && Inv(s)
    ensures SessionOk(Apply(s, Delete(id)), x)
  {
    assert SessionOk(s, x) && SessionOk(s, s.peers[id]);
  }

  lemma SessionStaysOk(s: State, e: Event, x: Session)
    requires Enabled(s, e) && Inv(s)
    ensures SessionOk(Apply(s, e), x)
  {
    match e
    case Store(y) => StoreKeepsSession(s, y, x);
    case Delete(id) => DeleteKeepsSession(s, id, x);
    case _ => assert SessionOk(s, x);
  }

  /** The two sides of the equation. */
  function Pending(s: State): nat { |s.uncounted| }

  function Sessions(s: State): nat { |s.peers| + |s.overwritten| + |s.removed| }

  predicate Balanced(num: U64, left: nat, right: nat)
  {
    (num + left) % WRAP == right % WRAP
  }

  /** The four ways a step can move them. */
  predicate Moves(num: U64, left: nat, right: nat, num': U64, left': nat, right': nat)
  {
    || (num' == num && left' == left && right' == right)
    || (num' == num && left' == left + 1 && right' == right + 1)
    || (num' == AddU64(num, 1) && left' + 1 == left && right' == right)
    || (num' == AddU64(num, 0xFFFF_FFFF_FFFF_FFFF) && left' == left && right' + 1 == right)
  }

  lemma Balance(num: U64, left: nat, right: nat, num': U64, left': nat, right': nat)
    requires Balanced(num, left, right) && Moves(num, left, right, num', left', right')
    ensures Balanced(num', left', right')
  {
    if num' == AddU64(num, 1) && left' + 1 == left && right' == right {
      Shift(num' + left');
      assert num + left == num' + left' || num + left == num' + left' + WRAP;
    } else if num' == AddU64(num, 0xFFFF_FFFF_FFFF_FFFF) && left' == left && right' + 1 == right {
      Shift(num + left);
      assert num' + left' == num + left - 1 || num' + left' == num + left - 1 + WRAP;
      OneLess(if num > 0 then num + left else num + left + WRAP, right);
    } else if left' == left + 1 {
      OneMore(num + left, right);
    }
  }

  lemma Shift(a: nat)
    ensures (a + WRAP) % WRAP == a % WRAP
  {
  }

  lemma OneMore(a: nat, b: nat)
    requires a % WRAP == b % WRAP
    ensures (a + 1) % WRAP == (b + 1) % WRAP
  {
  }

  lemma OneLess(a: nat, b: nat)
    requires a > 0 && b > 0 && a % WRAP == b % WRAP
    ensures (a - 1) % WRAP == (b - 1) % WRAP
  {
  }

  lemma StoreSizes(s: State, x: Session)
    requires Enabled(s, Store(x)) && Inv(s)
    ensures var s' := Apply(s, Store(x));
      Pending(s') == Pending(s) + 1 && Sessions(s') == Sessions(s) + 1
  {
    assert SessionOk(s, x);
    var id := s.made[x];
    if id in s.peers {
      assert SessionOk(s, s.peers[id]);
      assert s.peers[id := x].Keys == s.peers.Keys;
    } else {
      assert s.peers[id := x].Keys == s.peers.Keys + {id};
    }
  }

  lemma DeleteSizes(s: State, id: Id)
    requires Enabled(s, Delete(id)) && Inv(s)
    ensures Sessions(Apply(s, Delete(id))) == Sessions(s)
  {
    assert SessionOk(s, s.peers[id]);
    assert (s.peers - {id}).Keys == s.peers.Keys - {id};
  }

  lemma StepMoves(s: State, e: Event)
    requires Enabled(s, e) && Inv(s)
    ensures var s' := Apply(s, e);
      Moves(s.num, Pending(s), Sessions(s), s'.num, Pending(s'), Sessions(s'))
  {
    match e
    case Store(x) => StoreSizes(s, x);
    case Delete(id) => DeleteSizes(s, id);
    case _ =>
  }

  lemma EquationStays(s: State, e: Event)
    requires Enabled(s, e) && Inv(s)
    ensures Balanced(Apply(s, e).num, Pending(Apply(s, e)), Sessions(Apply(s, e)))
  {
    StepMoves(s, e);
    Balance(s.num, Pending(s), Sessions(s), Apply(s, e).num, Pending(Apply(s, e)), Sessions(Apply(s, e)));
  }

  lemma PeersStayOk(s: State, e: Event, id: Id)
    requires Enabled(s, e) && Inv(s) && id in Apply(s, e).peers
    ensures Apply(s, e).peers[id] in Apply(s, e).made && Apply(s, e).made[Apply(s, e).peers[id]] == id
  {
  }

  lemma StepKeepsInv(s: State, e: Event)
    requires Enabled(s, e) && Inv(s)
    ensures Inv(Apply(s, e))
  {
    var s' := Apply(s, e);
    forall x ensures SessionOk(s', x) { SessionStaysOk(s, e, x); }
    forall id | id in s'.peers ensures s'.peers[id] in s'.made && s'.made[s'.peers[id]] == id { PeersStayOk(s, e, id); }
    EquationStays(s, e);
  }

  lemma RunKeepsInv(trace: seq<State>, k: nat)
    requires IsMapRun(trace) && k < |trace|
    ensures Inv(trace[k])
  {
    forall s, s' | Inv(s) && Next(s, s')
      ensures Inv(s')
    {
      var e :| Enabled(s, e) && s' == Apply(s, e);
      StepKeepsInv(s, e);
    }
    InvariantHolds(s => s == Start, Next, Inv, trace, k);
  }

  // ---- results ----

  /** Conservation, in every interleaving and modulo 2^64: the counter and the stores it
      has yet to count make up the sessions in the map, those stored over, and those
      deleted but not yet uncounted. */
  lemma CounterEquation(trace: seq<State>, k: nat)
    requires IsMapRun(trace) && k < |trace|
    ensures var s := trace[k];
      (s.num + |s.uncounted|) % WRAP == (|s.peers| + |s.overwritten| + |s.removed|) % WRAP
  {
    RunKeepsInv(trace, k);
  }

  /** Len: the counter read as a signed 64-bit int. */
  function Len(s: State): int
  {
    if s.num >= 0x8000_0000_0000_0000 then s.num - WRAP else s.num
  }

  /** With no call between a map operation and its counting, Len is the number of sessions
      in the map iff a multiple of 2^64 stores went over another session. */
  lemma LenExactIff(trace: seq<State>, k: nat)
    requires IsMapRun(trace) && k < |trace|
    requires trace[k].uncounted == {} && trace[k].removed == {}
    requires |trace[k].peers| < 0x8000_0000_0000_0000  // the length of a snapshot is an int
    ensures Len(trace[k]) == |trace[k].peers| <==> |trace[k].overwritten| % WRAP == 0
  {
    RunKeepsInv(trace, k);
    var s := trace[k];
    assert s.num == (|s.peers| + |s.overwritten|) % WRAP;
    var q, r := |s.overwritten| / WRAP, |s.overwritten| % WRAP;
    assert |s.peers| + |s.overwritten| == q * WRAP + (|s.peers| + r);
    RemainderOf(q, |s.peers| + r);
  }

  lemma RemainderOf(q: nat, r: nat)
    requires r < 2 * WRAP
    ensures (q * WRAP + r) % WRAP == if r < WRAP then r else r - WRAP
  {
  }

  /** No session is forgotten: one that was built is waiting to be stored, in the map, on its
      way out, closed, stored over, or given up before it was stored, and just one of these. */
  lemma SessionAccountedFor(trace: seq<State>, k: nat, x: Session)
    requires IsMapRun(trace) && k < |trace| && x in trace[k].made
    ensures Places(trace[k], x) == 1
  {
    RunKeepsInv(trace, k);
    assert SessionOk(trace[k], x);
  }

  lemma Go(a: State, s: State, e: Event) returns (s': State)
    requires Reaches(Next, a, s) && Enabled(s, e)
    ensures s' == Apply(s, e) && Reaches(Next, a, s')
  {
    s' := Apply(s, e);
    assert Next(s, s');
    ReachesStep(Next, a, s, s');
  }

  /** The number after n, in 64 bits. */
  function Succ(n: U64): U64
  {
    if n == WRAP - 1 then 0 else n + 1
  }

  /** From wherever a run has come, Remove can run to its end: the session is out of the map,
      closed once, and counted no more. */
  lemma RemoveFinishes(trace: seq<State>, k: nat, id: Id) returns (s': State)
    requires IsMapRun(trace) && k < |trace| && id in trace[k].peers
    ensures var s := trace[k]; var x := s.peers[id];
      && Reaches(Next, s, s') && s'.peers == s.peers - {id} && Succ(s'.num) == s.num
      && s'.byes[x] == 1 && x !in s'.removed && x !in s'.leaving
  {
    RunKeepsInv(trace, k);
    var x := trace[k].peers[id];
    assert SessionOk(trace[k], x);
    ReachesSelf(Next, trace[k]);
    s' := Go(trace[k], trace[k], Delete(id));
    s' := Go(trace[k], s', Uncount(x));
    s' := Go(trace[k], s', Bye(x));
  }

  /** So can NewPeer, and the session is in the map and counted ... */
  lemma NewPeerFinishes(trace: seq<State>, k: nat, x: Session) returns (s': State)
    requires IsMapRun(trace) && k < |trace| && x in trace[k].entering
    ensures x in trace[k].made && Reaches(Next, trace[k], s')
    ensures s'.peers == trace[k].peers[trace[k].made[x] := x] && s'.num == Succ(trace[k].num)
    ensures x !in s'.uncounted && x !in s'.entering
  {
    RunKeepsInv(trace, k);
    assert SessionOk(trace[k], x);
    ReachesSelf(Next, trace[k]);
    s' := Go(trace[k], trace[k], Store(x));
    s' := Go(trace[k], s', Count(x));
  }

  /** ... or given up, and nothing has changed. */
  lemma NewPeerGivesUp(trace: seq<State>, k: nat, x: Session) returns (s': State)
    requires IsMapRun(trace) && k < |trace| && x in trace[k].entering
    ensures Reaches(Next, trace[k], s') && s'.peers == trace[k].peers && s'.num == trace[k].num
    ensures x !in s'.entering && x in s'.aborted
  {
    ReachesSelf(Next, trace[k]);
    s' := Go(trace[k], trace[k], Abort(x));
  }

  /** However many calls of Remove race, a session is closed by them at most once; and one
      that was stored over is never closed by them at all. */
  lemma ByeAtMostOnce(trace: seq<State>, k: nat, x: Session)
    requires IsMapRun(trace) && k < |trace|
    ensures trace[k].byes[x] <= 1
    ensures x in trace[k].overwritten ==> trace[k].byes[x] == 0 && !Live(trace[k], x)
  {
    RunKeepsInv(trace, k);
    assert SessionOk(trace[k], x);
  }

  // ---- exactly when a check is safe ----

  /** Another call of NewPeer for id is between its check and its store. */
  predicate Racing(s: State, id: Id)
  {
    exists y :: y in s.entering && y in s.made && s.made[y] == id
  }

  /** No call of NewPeer checks while another for the same peer has yet to store. */
  predicate Orderly(s: State, e: Event)
  {
    e.Check? ==> !Racing(s, e.id)
  }

  ghost predicate OrderlyNext(s: State, s': State)
  {
    exists e :: Enabled(s, e) && Orderly(s, e) && s' == Apply(s, e)
  }

  ghost predicate IsOrderlyRun(trace: seq<State>)
  {
    IsRun(s => s == Start, OrderlyNext, trace)
  }

  /** Nothing was stored over, and nothing about to be stored can be. */
  ghost predicate Single(s: State)
  {
    && s.overwritten == {}
    && (forall x :: x in s.entering ==> x in s.made && s.made[x] !in s.peers)
    && (forall x, y :: x in s.entering && y in s.entering && s.made[x] == s.made[y] ==> x == y)
  }

  lemma OrderlyNextKeepsSingle()
    ensures forall s, s' :: Single(s) && OrderlyNext(s, s') ==> Single(s')
  {
    forall s, s' | Single(s) && OrderlyNext(s, s')
      ensures Single(s')
    {
      var e :| Enabled(s, e) && Orderly(s, e) && s' == Apply(s, e);
    }
  }

  lemma OrderlyRunKeepsSingle(trace: seq<State>, k: nat)
    requires IsOrderlyRun(trace) && k < |trace|
    ensures Single(trace[k])
  {
    OrderlyNextKeepsSingle();
    InvariantHolds(s => s == Start, OrderlyNext, Single, trace, k);
  }

  lemma OrderlyIsRun(trace: seq<State>)
    requires IsOrderlyRun(trace)
    ensures IsMapRun(trace)
  {
    forall i | 0 < i < |trace|
      ensures Next(trace[i - 1], trace[i])
    {
      assert OrderlyNext(trace[i - 1], trace[i]);
    }
  }

  /** Only racing calls store over a session: without a race every call of NewPeer but the
      first finds the session there, none is stored over, and once the counting is done
      Len is the number of sessions in the map. */
  lemma OrderlyLenExact(trace: seq<State>, k: nat)
    requires IsOrderlyRun(trace) && k < |trace|
    ensures trace[k].overwritten == {}
    ensures trace[k].uncounted == {} && trace[k].removed == {} && |trace[k].peers| < 0x8000_0000_0000_0000 ==>
      Len(trace[k]) == |trace[k].peers|
  {
    OrderlyRunKeepsSingle(trace, k);
    OrderlyIsRun(trace);
    if trace[k].uncounted == {} && trace[k].removed == {} && |trace[k].peers| < 0x8000_0000_0000_0000 {
      LenExactIff(trace, k);
    }
  }

  lemma GoOrderly(a: State, s: State, e: Event) returns (s': State)
    requires Reaches(OrderlyNext, a, s) && Enabled(s, e) && !e.Check?
    ensures s' == Apply(s, e) && Reaches(OrderlyNext, a, s')
  {
    s' := Apply(s, e);
    assert OrderlyNext(s, s');
    ReachesStep(OrderlyNext, a, s, s');
  }

  /** A check that passes leads to no session stored over, in all that may follow, later
      checks being orderly, iff no other call for the peer is between check and store. */
  lemma CheckSafeIff(trace: seq<State>, k: nat, x: Session, id: Id)
    requires IsOrderlyRun(trace) && k < |trace| && Enabled(trace[k], Check(x, id))
    ensures !Racing(trace[k], id)
            <==> forall s' :: Reaches(OrderlyNext, Apply(trace[k], Check(x, id)), s') ==> s'.overwritten == {}
  {
    OrderlyRunKeepsSingle(trace, k);
    var s := trace[k];
    var a := Apply(s, Check(x, id));
    if y :| y in s.entering && y in s.made && s.made[y] == id {
      ReachesSelf(OrderlyNext, a);
      var s' := GoOrderly(a, a, Store(y));
      s' := GoOrderly(a, s', Store(x));
      assert y in s'.overwritten;
    } else {
      OrderlyNextKeepsSingle();
      assert Single(a);
      forall s' | Reaches(OrderlyNext, a, s')
        ensures s'.overwritten == {}
      {
        ReachesKeeps(OrderlyNext, Single, a, s');
      }
    }
  }

  lemma Continue(trace: seq<State>, e: Event) returns (longer: seq<State>)
    requires IsMapRun(trace) && Enabled(trace[|trace| - 1], e)
    ensures IsMapRun(longer)
    ensures longer == trace + [Apply(trace[|trace| - 1], e)]
  {
    var s' := Apply(trace[|trace| - 1], e);
    assert Next(trace[|trace| - 1], s');
    Extend(s => s == Start, Next, trace, s');
    longer := trace + [s'];
  }

  /** Two calls of NewPeer for one peer that pass the check together: the map holds one
      session and Len says two. */
  lemma RacingNewPeersMiscount(id: Id) returns (trace: seq<State>)
    ensures IsMapRun(trace)
    ensures var s := trace[|trace| - 1];
      s.uncounted == {} && s.removed == {} && |s.peers| == 1 && Len(s) == 2
  {
    trace := [Start];
    trace := Continue(trace, Check(0, id));
    trace := Continue(trace, Check(1, id));
    trace := Continue(trace, Store(0));
    trace := Continue(trace, Count(0));
    trace := Continue(trace, Store(1));
    trace := Continue(trace, Count(1));
    var s := trace[|trace| - 1];
    assert s.uncounted == {};
    assert s.peers == map[id := 1];
  }

  /** A Remove that comes between a store and its counting makes Len negative. */
  lemma LenCanBeNegative(id: Id) returns (trace: seq<State>)
    ensures IsMapRun(trace) && Len(trace[|trace| - 1]) == -1
  {
    trace := [Start];
    trace := Continue(trace, Check(0, id));
    trace := Continue(trace, Store(0));
    trace := Continue(trace, Delete(id));
    trace := Continue(trace, Uncount(0));
  }
}
