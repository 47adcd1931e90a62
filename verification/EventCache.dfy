/**
 The two values a server derives from a PeerMap that other goroutines change: the
 gossiped filter of connected clients (Clients) and the current leader (Peers).  Both
 follow one scheme: whoever changes the map later sends an event, and one consumer
 answers each event by scanning the whole map and publishing what it saw.

 One step is one atomic map or channel operation.  A scan is not atomic: as Go's
 sync.Map promises, it reports every key that is left alone while it lasts, and may or
 may not report a key that is stored or deleted meanwhile.
 */
module EventCache {
  import opened BigEndian
  import opened Runs

  type Id = U64
  type Pid = nat

  const NOTIFY_CAPACITY := 16
  const EVENT_CAPACITY := 1

  datatype Kind = Clients | Peers

  /** Who sent an event.  The events themselves carry nothing; this is for the proof. */
  datatype Cause = Startup | Change(id: Id)

  datatype Proc =
    | Stored(id: Id)      // NewPeer: the map holds id, notify not sent yet
    | Announcing(id: Id)  // client goroutine: about to send its first event
    | Serving(id: Id)     // goroutine waiting for the session to close
    | Removing(id: Id)    // about to delete id from the map
    | Removed(id: Id)     // deleted, about to send the event
    | Starting            // ListenForPeers: about to send the initial event

  datatype Handler = Free | Sending(id: Id)

  datatype Consumer =
    | Idle
    | Scanning(touched: set<Id>)
    | Holding(snapshot: set<Id>, touched: set<Id>)
    | Stopped

  /** members: the keys of the map.  view: the keys behind the published value.
      published: whether there is one yet.  failed: the latest attempt to build one failed;
      tried: the keys that attempt was for.  exited: the keys whose goroutine left without
      removing them, because the server shuts down. */
  datatype State = State(
    members: set<Id>, procs: map<Pid, Proc>, notify: seq<Id>, handler: Handler,
    events: seq<Cause>, consumer: Consumer, view: set<Id>, published: bool, failed: bool, tried: set<Id>,
    exited: set<Id>)

  datatype Event =
    | Store(pid: Pid, id: Id)
    | Notify(pid: Pid)
    | Handle(pid: Pid)
    | HandlerSend
    | SendFirst(pid: Pid)
    | Close(pid: Pid)
    | Leave(pid: Pid, id: Id)
    | Delete(pid: Pid)
    | SendLast(pid: Pid)
    | SendStartup(pid: Pid)
    | Exit(pid: Pid)
    | Receive
    | Snapshot(seen: set<Id>)
    | Publish
    | Fail
    | Stop

  /** A scan may return seen: right about every key not touched since it began. */
  ghost predicate Scanned(s: State, seen: set<Id>)
    requires s.consumer.Scanning?
  {
    forall id: Id :: id !in s.consumer.touched ==> (id in seen <==> id in s.members)
  }

  predicate At(s: State, pid: Pid, p: Proc)
  {
    pid in s.procs && s.procs[pid] == p
  }

  ghost predicate Enabled(kind: Kind, s: State, e: Event)
  {
    match e
    case Store(pid, _) => pid !in s.procs
    case Notify(pid) => pid in s.procs && s.procs[pid].Stored? && |s.notify| < NOTIFY_CAPACITY
    case Handle(pid) => pid !in s.procs && s.handler.Free? && s.notify != []
    case HandlerSend => s.handler.Sending? && |s.events| < EVENT_CAPACITY
    case SendFirst(pid) => pid in s.procs && s.procs[pid].Announcing? && |s.events| < EVENT_CAPACITY
    case Close(pid) => pid in s.procs && s.procs[pid].Serving?
    case Leave(pid, _) => kind.Peers? && pid !in s.procs
    case Delete(pid) => pid in s.procs && s.procs[pid].Removing?
    case SendLast(pid) => pid in s.procs && s.procs[pid].Removed? && |s.events| < EVENT_CAPACITY
    case SendStartup(pid) => At(s, pid, Starting) && |s.events| < EVENT_CAPACITY
    case Exit(pid) => pid in s.procs && s.procs[pid].Serving?
    case Receive => s.consumer.Idle? && s.events != []
    case Snapshot(seen) => s.consumer.Scanning? && Scanned(s, seen)
    case Publish => s.consumer.Holding?
    case Fail => kind.Clients? && s.consumer.Holding?
    case Stop => s.consumer.Idle?
  }

  /** A change of id while a scan is under way makes the scan's word about id worthless. */
  function Touch(c: Consumer, id: Id): Consumer
  {
    match c
    case Scanning(touched) => Scanning(touched + {id})
    case Holding(snapshot, touched) => Holding(snapshot, touched + {id})
    case _ => c
  }

  ghost function Apply(kind: Kind, s: State, e: Event): State
    requires Enabled(kind, s, e)
  {
    match e
    case Store(pid, id) =>
      s.(members := s.members + {id}, procs := s.procs[pid := Stored(id)], consumer := Touch(s.consumer, id))
    case Notify(pid) =>
      s.(notify := s.notify + [s.procs[pid].id], procs := s.procs - {pid})
    case Handle(pid) =>
      var id := s.notify[0];
      if kind.Clients? then
        s.(notify := s.notify[1..], procs := s.procs[pid := Announcing(id)])
      else
        s.(notify := s.notify[1..], procs := s.procs[pid := Serving(id)], handler := Sending(id))
    case HandlerSend =>
      s.(events := s.events + [Change(s.handler.id)], handler := Free)
    case SendFirst(pid) =>
      s.(events := s.events + [Change(s.procs[pid].id)], procs := s.procs[pid := Serving(s.procs[pid].id)])
    case Close(pid) =>
      s.(procs := s.procs[pid := Removing(s.procs[pid].id)])
    case Leave(pid, id) =>
      s.(procs := s.procs[pid := Removing(id)])
    case Delete(pid) =>
      var id := s.procs[pid].id;
      s.(members := s.members - {id}, procs := s.procs[pid := Removed(id)], consumer := Touch(s.consumer, id))
    case SendLast(pid) =>
      s.(events := s.events + [Change(s.procs[pid].id)], procs := s.procs - {pid})
    case SendStartup(pid) =>
      s.(events := s.events + [Startup], procs := s.procs - {pid})
    case Exit(pid) =>
      s.(procs := s.procs - {pid}, exited := s.exited + {s.procs[pid].id})
    case Receive =>
      s.(events := s.events[1..], consumer := Scanning({}))
    case Snapshot(seen) =>
      s.(consumer := Holding(seen, s.consumer.touched))
    case Publish =>
      s.(view := s.consumer.snapshot, tried := s.consumer.snapshot, published := true, failed := false,
         consumer := Idle)
    case Fail =>
      s.(failed := true, tried := s.consumer.snapshot, consumer := Idle)
    case Stop =>
      s.(consumer := Stopped)
  }

  ghost predicate Init(kind: Kind, s: State)
  {
    && s.members == {} && s.view == {} && s.tried == {} && s.exited == {}
    && s.notify == [] && s.events == []
    && s.handler.Free? && s.consumer.Idle? && !s.failed
    && s.procs == (if kind.Clients? then map[] else map[0 := Starting])
    && s.published == kind.Clients?  // no clients yet is what an unset filter says
  }

  ghost predicate Next(kind: Kind, s: State, s': State)
  {
    exists e :: Enabled(kind, s, e) && s' == Apply(kind, s, e)
  }

  /** The goroutine at p has changed the map at id and still owes the event for it. */
  predicate Owes(p: Proc, id: Id)
  {
    p == Stored(id) || p == Announcing(id) || p == Removed(id)
  }

  ghost predicate OwingProc(s: State, id: Id)
  {
    exists pid :: pid in s.procs && Owes(s.procs[pid], id)
  }

  /** An event caused by a change of id is still on its way to the consumer. */
  ghost predicate Pending(s: State, id: Id)
  {
    || OwingProc(s, id)
    || id in s.notify
    || s.handler == Sending(id)
    || Change(id) in s.events
  }

  /** ... or is being answered by a scan that began after the last change of id. */
  ghost predicate Outstanding(s: State, id: Id)
  {
    Pending(s, id) || InHand(s.consumer, id)
  }

  predicate InHand(c: Consumer, id: Id)
  {
    (c.Scanning? || c.Holding?) && id !in c.touched
  }

  predicate Busy(c: Consumer)
  {
    c.Scanning? || c.Holding?
  }

  ghost predicate StartupOutstanding(s: State)
  {
    (exists pid :: At(s, pid, Starting)) || Startup in s.events || Busy(s.consumer)
  }

  predicate Stale(s: State, id: Id)
  {
    id in s.view <==> id !in s.members
  }

  /** The latest attempt was wrong about id. */
  predicate Behind(s: State, id: Id)
  {
    id in s.tried <==> id !in s.members
  }

  ghost predicate InvAt(s: State, id: Id)
  {
    && (Behind(s, id) ==> Outstanding(s, id))
    && (Busy(s.consumer) && id in s.consumer.touched ==> Pending(s, id))
    && (s.consumer.Holding? && id !in s.consumer.touched ==>
          (id in s.consumer.snapshot <==> id in s.members))
  }

  ghost predicate Inv(kind: Kind, s: State)
  {
    && (forall id: Id :: InvAt(s, id))
    && (!s.failed ==> s.view == s.tried)
    && (s.published || StartupOutstanding(s))
    && (kind.Clients? ==> s.published)
    && (kind.Peers? ==> !s.failed)
    && |s.notify| <= NOTIFY_CAPACITY
    && |s.events| <= EVENT_CAPACITY
  }

  // ---- every step keeps the invariant ----

  /** Steps of the goroutines: an obligation about id is handed on, never dropped. */
  lemma PendingHandedOn(kind: Kind, s: State, e: Event, id: Id)
    requires Enabled(kind, s, e) && !e.Receive?
    requires Pending(s, id)
    ensures Pending(Apply(kind, s, e), id)
  {
    var s' := Apply(kind, s, e);
    if Change(id) in s.events {
      assert Change(id) in s'.events;
    } else if id in s.notify {
      if e.Handle? {
        if id != s.notify[0] {
          assert id in s.notify[1..];
        } else if kind.Clients? {
          assert Owes(s'.procs[e.pid], id);
        }
      } else {
        assert id in s'.notify;
      }
    } else if s.handler == Sending(id) {
      if e.HandlerSend? {
        assert s'.events[|s.events|] == Change(id);
      }
    } else {
      var q :| q in s.procs && Owes(s.procs[q], id);
      OwingHandedOn(kind, s, e, id, q);
    }
  }

  lemma OwingHandedOn(kind: Kind, s: State, e: Event, id: Id, q: Pid)
    requires Enabled(kind, s, e) && !e.Receive?
    requires q in s.procs && Owes(s.procs[q], id)
    ensures Pending(Apply(kind, s, e), id)
  {
    var s' := Apply(kind, s, e);
    if e == Notify(q) {
      assert s'.notify[|s.notify|] == id;
    } else if e == SendFirst(q) || e == SendLast(q) {
      assert s'.events[|s.events|] == Change(id);
    } else {
      assert q in s'.procs && s'.procs[q] == s.procs[q];
    }
  }

  /** Whoever changes the map at id owes the event from that very step. */
  lemma ChangeOwes(kind: Kind, s: State, e: Event, id: Id)
    requires Enabled(kind, s, e)
    requires (id in s.members) != (id in Apply(kind, s, e).members)
          || (Busy(s.consumer) && Busy(Apply(kind, s, e).consumer)
              && id !in s.consumer.touched && id in Apply(kind, s, e).consumer.touched)
    ensures Pending(Apply(kind, s, e), id)
  {
    assert e.Store? || e.Delete?;
    assert Owes(Apply(kind, s, e).procs[e.pid], id);
  }

  lemma StepKeepsAt(kind: Kind, s: State, e: Event, id: Id)
    requires Enabled(kind, s, e) && InvAt(s, id)
    ensures InvAt(Apply(kind, s, e), id)
  {
    var s' := Apply(kind, s, e);
    if e.Receive? {
      assert s'.consumer.touched == {};
    } else {
      if Pending(s, id) {
        PendingHandedOn(kind, s, e, id);
      } else if (id in s.members) != (id in s'.members) {
        ChangeOwes(kind, s, e, id);
      } else if Busy(s.consumer) && Busy(s'.consumer) && id !in s.consumer.touched && id in s'.consumer.touched {
        ChangeOwes(kind, s, e, id);
      }
    }
  }

  lemma StepKeepsStartup(kind: Kind, s: State, e: Event)
    requires Enabled(kind, s, e) && (s.published || StartupOutstanding(s))
    ensures var s' := Apply(kind, s, e); s'.published || StartupOutstanding(s') || s'.failed
  {
    var s' := Apply(kind, s, e);
    if !s'.published && !s'.failed && !Busy(s'.consumer) {
      if Startup in s.events {
        assert Startup in s'.events;
      } else {
        var pid :| At(s, pid, Starting);
        if e == SendStartup(pid) {
          assert s'.events[|s.events|] == Startup;
        } else {
          assert At(s', pid, Starting);
        }
      }
    }
  }

  lemma StepKeepsInv(kind: Kind, s: State, s': State)
    requires Inv(kind, s) && Next(kind, s, s')
    ensures Inv(kind, s')
  {
    var e :| Enabled(kind, s, e) && s' == Apply(kind, s, e);
    forall id: Id
      ensures InvAt(s', id)
    {
      StepKeepsAt(kind, s, e, id);
    }
    StepKeepsStartup(kind, s, e);
  }

  ghost predicate IsCacheRun(kind: Kind, trace: seq<State>)
  {
    IsRun(s => Init(kind, s), (s, s') => Next(kind, s, s'), trace)
  }

  lemma RunKeepsInv(kind: Kind, trace: seq<State>, k: nat)
    requires IsCacheRun(kind, trace) && k < |trace|
    ensures Inv(kind, trace[k])
  {
    var init := s => Init(kind, s);
    var next := (s, s') => Next(kind, s, s');
    var inv := s => Inv(kind, s);
    forall s | init(s)
      ensures inv(s)
    {
      if kind.Peers? { assert At(s, 0, Starting); }
    }
    forall s, s' | inv(s) && next(s, s')
      ensures inv(s')
    {
      StepKeepsInv(kind, s, s');
    }
    InvariantHolds(init, next, inv, trace, k);
  }

  // ---- results ----

  /** No lost update: in every interleaving, and however many builds fail, a key on which
      the latest attempt and the map disagree has an event of its own still outstanding. */
  lemma BehindImpliesOutstanding(kind: Kind, trace: seq<State>, k: nat, id: Id)
    requires IsCacheRun(kind, trace) && k < |trace|
    requires Behind(trace[k], id)
    ensures Outstanding(trace[k], id)
  {
    RunKeepsInv(kind, trace, k);
    assert InvAt(trace[k], id);
  }

  /** So has a key on which the published value and the map disagree, unless the latest
      attempt was right about it and failed. */
  lemma StaleImpliesOutstanding(kind: Kind, trace: seq<State>, k: nat, id: Id)
    requires IsCacheRun(kind, trace) && k < |trace|
    requires Stale(trace[k], id)
    ensures Outstanding(trace[k], id) || (kind.Clients? && trace[k].failed && !Behind(trace[k], id))
  {
    RunKeepsInv(kind, trace, k);
    assert InvAt(trace[k], id);
  }

  /** No goroutine owes an event, none is queued, and the consumer has nothing in hand. */
  ghost predicate Quiescent(s: State)
  {
    && (forall pid :: pid in s.procs ==> s.procs[pid].Serving? || s.procs[pid].Removing?)
    && s.notify == [] && s.events == [] && s.handler.Free? && !Busy(s.consumer)
  }

  lemma QuiescentInv(kind: Kind, s: State)
    requires Inv(kind, s) && Quiescent(s)
    ensures s.tried == s.members
  {
    forall id: Id
      ensures id in s.tried <==> id in s.members
    {
      assert InvAt(s, id);
    }
  }

  lemma QuiescentInvIsExact(kind: Kind, s: State)
    requires Inv(kind, s) && Quiescent(s) && !s.failed
    ensures s.view == s.members && s.published
  {
    QuiescentInv(kind, s);
    assert !StartupOutstanding(s);
  }

  /** Failed builds or not: at quiescence the latest attempt was for exactly the members of
      the map, and so the published value is right iff it is of the same keys. */
  lemma FailedBuildHarmlessIff(kind: Kind, trace: seq<State>, k: nat)
    requires IsCacheRun(kind, trace) && k < |trace| && Quiescent(trace[k])
    ensures trace[k].tried == trace[k].members
    ensures trace[k].view == trace[k].members <==> trace[k].view == trace[k].tried
  {
    RunKeepsInv(kind, trace, k);
    QuiescentInv(kind, trace[k]);
  }

  /** At quiescence the published value describes exactly the members of the map. */
  lemma QuiescentIsExact(kind: Kind, trace: seq<State>, k: nat)
    requires IsCacheRun(kind, trace) && k < |trace|
    requires Quiescent(trace[k]) && !trace[k].failed
    ensures trace[k].view == trace[k].members && trace[k].published
  {
    RunKeepsInv(kind, trace, k);
    QuiescentInvIsExact(kind, trace[k]);
  }

  // ---- who is in the map ----

  /** The goroutine at p stands for a session with id that is in the map or about to leave it. */
  predicate Keeps(p: Proc, id: Id)
  {
    p == Stored(id) || p == Announcing(id) || p == Serving(id) || p == Removing(id)
  }

  ghost predicate Kept(s: State, id: Id)
  {
    id in s.notify || exists pid :: pid in s.procs && Keeps(s.procs[pid], id)
  }

  ghost predicate KeptAt(s: State, id: Id)
  {
    id in s.members ==> id in s.exited || Kept(s, id)
  }

  /** A session is handed from goroutine to queue to goroutine until it is removed. */
  lemma KeepingHandedOn(kind: Kind, s: State, e: Event, id: Id)
    requires Enabled(kind, s, e) && Kept(s, id)
    ensures var s' := Apply(kind, s, e); Kept(s', id) || id !in s'.members || id in s'.exited
  {
    var s' := Apply(kind, s, e);
    if id in s.notify {
      if e.Handle? && id == s.notify[0] {
        assert Keeps(s'.procs[e.pid], id);
      } else {
        assert id in s'.notify;
      }
    } else {
      var q :| q in s.procs && Keeps(s.procs[q], id);
      if e == Notify(q) {
        assert s'.notify[|s.notify|] == id;
      } else if e != Exit(q) && e != Delete(q) {
        assert q in s'.procs && Keeps(s'.procs[q], id);
      }
    }
  }

  lemma StepKeepsKept(kind: Kind, s: State, e: Event, id: Id)
    requires Enabled(kind, s, e) && KeptAt(s, id)
    ensures KeptAt(Apply(kind, s, e), id)
  {
    var s' := Apply(kind, s, e);
    if Kept(s, id) {
      KeepingHandedOn(kind, s, e, id);
    } else if id in s'.members && id !in s.members {
      assert Keeps(s'.procs[e.pid], id);
    }
  }

  /** In every interleaving a key in the map has a goroutine that answers for it, or will be
      given one, unless that goroutine left because the server shuts down. */
  lemma MemberIsKept(kind: Kind, trace: seq<State>, k: nat, id: Id)
    requires IsCacheRun(kind, trace) && k < |trace| && id in trace[k].members
    ensures id in trace[k].exited || Kept(trace[k], id)
  {
    var next := (s, s') => Next(kind, s, s');
    var kept := s => KeptAt(s, id);
    forall s, s' | kept(s) && next(s, s')
      ensures kept(s')
    {
      var e :| Enabled(kind, s, e) && s' == Apply(kind, s, e);
      StepKeepsKept(kind, s, e, id);
    }
    InvariantHolds(s => Init(kind, s), next, kept, trace, k);
  }

  /** So at quiescence nobody is published who is gone: a right value names only those whose
      goroutine is still serving them or about to remove them. */
  lemma QuiescentNamesOnlyServed(kind: Kind, trace: seq<State>, k: nat, id: Id)
    requires IsCacheRun(kind, trace) && k < |trace| && Quiescent(trace[k])
    requires trace[k].view == trace[k].tried && id in trace[k].view && id !in trace[k].exited
    ensures exists pid :: At(trace[k], pid, Serving(id)) || At(trace[k], pid, Removing(id))
  {
    FailedBuildHarmlessIff(kind, trace, k);
    MemberIsKept(kind, trace, k, id);
    var pid :| pid in trace[k].procs && Keeps(trace[k].procs[pid], id);
    assert At(trace[k], pid, trace[k].procs[pid]);
  }

  // ---- everything owed can be paid ----

  ghost predicate QuietNext(kind: Kind, s: State, s': State)
  {
    exists e: Event :: !e.Store? && Enabled(kind, s, e) && s' == Apply(kind, s, e)
  }

  /** Some sequence of steps leads from s to t, and none of them stores a session. */
  ghost predicate Leads(kind: Kind, s: State, t: State)
  {
    Reaches((a, b) => QuietNext(kind, a, b), s, t)
  }

  lemma LeadsSelf(kind: Kind, s: State)
    ensures Leads(kind, s, s)
  {
    ReachesSelf((a, b) => QuietNext(kind, a, b), s);
  }

  lemma LeadsTrans(kind: Kind, s: State, t: State, u: State)
    requires Leads(kind, s, t) && Leads(kind, t, u)
    ensures Leads(kind, s, u)
  {
    ReachesTrans((a, b) => QuietNext(kind, a, b), s, t, u);
  }

  lemma Go(kind: Kind, s: State, e: Event) returns (t: State)
    requires Enabled(kind, s, e) && !e.Store?
    ensures t == Apply(kind, s, e) && Leads(kind, s, t)
  {
    t := Apply(kind, s, e);
    var next := (a, b) => QuietNext(kind, a, b);
    assert next(s, t);
    ReachesSelf(next, s);
    ReachesStep(next, s, s, t);
  }

  /** What the consumer leaves alone. */
  predicate Same(s: State, t: State)
  {
    && t.members == s.members && t.procs == s.procs && t.notify == s.notify && t.handler == s.handler
    && t.exited == s.exited
  }

  /** The consumer waits and nothing is queued for it. */
  predicate Rested(s: State)
  {
    s.consumer.Idle? && s.events == []
  }

  lemma ScanEnds(kind: Kind, s: State) returns (t: State)
    requires Busy(s.consumer)
    ensures Leads(kind, s, t) && Same(s, t) && t.events == s.events && t.consumer.Idle? && !t.failed
  {
    LeadsSelf(kind, s);
    t := s;
    if s.consumer.Scanning? {
      t := Go(kind, s, Snapshot(s.members));
    }
    var u := Go(kind, t, Publish);
    LeadsTrans(kind, s, t, u);
    t := u;
  }

  lemma {:induction false} EventsHandled(kind: Kind, s: State) returns (t: State)
    requires !s.consumer.Stopped?
    ensures Leads(kind, s, t) && Same(s, t) && Rested(t)
    ensures if Busy(s.consumer) || s.events != [] then !t.failed else t == s
    decreases |s.events|, if Busy(s.consumer) then 1 else 0
  {
    LeadsSelf(kind, s);
    t := s;
    if Busy(s.consumer) {
      var u := ScanEnds(kind, s);
      t := EventsHandled(kind, u);
      LeadsTrans(kind, s, u, t);
    } else if s.events != [] {
      var u := Go(kind, s, Receive);
      t := EventsHandled(kind, u);
      LeadsTrans(kind, s, u, t);
    }
  }

  /** ... and then what was sent to it. */
  lemma SentAndHandled(kind: Kind, s: State, e: Event) returns (t: State)
    requires Rested(s) && Enabled(kind, s, e) && (e.HandlerSend? || e.SendFirst? || e.SendLast? || e.SendStartup?)
    ensures Leads(kind, s, t) && Same(Apply(kind, s, e), t) && Rested(t) && !t.failed
  {
    var u := Go(kind, s, e);
    t := EventsHandled(kind, u);
    LeadsTrans(kind, s, u, t);
  }

  lemma HandlerSends(kind: Kind, s: State) returns (t: State)
    requires Rested(s)
    ensures Leads(kind, s, t) && Rested(t) && t.handler.Free?
    ensures t.members == s.members && t.procs == s.procs && t.notify == s.notify
    ensures if s.handler.Sending? then !t.failed else t == s
  {
    LeadsSelf(kind, s);
    t := s;
    if s.handler.Sending? {
      t := SentAndHandled(kind, s, HandlerSend);
    }
  }

  predicate Settled(p: Proc)
  {
    p.Serving? || p.Removing?
  }

  /** The goroutines that still owe something. */
  function Unsettled(procs: map<Pid, Proc>): set<Pid>
  {
    set pid | pid in procs && !Settled(procs[pid])
  }

  /** The goroutines of procs that owe something are as they were in procs'. */
  ghost predicate StillOwing(procs: map<Pid, Proc>, procs': map<Pid, Proc>)
  {
    forall p :: p in Unsettled(procs) ==> p in procs' && procs'[p] == procs[p]
  }

  /** The first session of the notify queue gets its goroutine, which sends its event. */
  lemma OneNotified(kind: Kind, s: State) returns (t: State)
    requires Rested(s) && s.handler.Free? && s.notify != []
    ensures Leads(kind, s, t) && Rested(t) && t.handler.Free? && !t.failed
    ensures t.members == s.members && t.notify == s.notify[1..] && Unsettled(t.procs) == Unsettled(s.procs)
    ensures StillOwing(s.procs, t.procs)
    ensures exists p :: At(t, p, Serving(s.notify[0]))
    ensures forall p, id :: At(s, p, Serving(id)) ==> At(t, p, Serving(id))
  {
    var pid := AboveAll(s.procs.Keys);
    var u := Go(kind, s, Handle(pid));
    if kind.Clients? {
      t := SentAndHandled(kind, u, SendFirst(pid));
    } else {
      t := HandlerSends(kind, u);
    }
    LeadsTrans(kind, s, u, t);
    assert At(t, pid, Serving(s.notify[0]));
  }

  lemma {:induction false} AllNotified(kind: Kind, s: State) returns (t: State)
    requires Rested(s) && s.handler.Free?
    ensures Leads(kind, s, t) && Rested(t) && t.handler.Free? && t.notify == []
    ensures t.members == s.members && Unsettled(t.procs) == Unsettled(s.procs) && StillOwing(s.procs, t.procs)
    ensures forall id :: id in s.notify ==> exists p :: At(t, p, Serving(id))
    ensures forall p, id :: At(s, p, Serving(id)) ==> At(t, p, Serving(id))
    ensures if s.notify != [] then !t.failed else t == s
    decreases |s.notify|
  {
    LeadsSelf(kind, s);
    t := s;
    if s.notify != [] {
      var u := OneNotified(kind, s);
      t := AllNotified(kind, u);
      LeadsTrans(kind, s, u, t);
      forall id | id in s.notify
        ensures exists p :: At(t, p, Serving(id))
      {
        if id == s.notify[0] {
          var p :| At(u, p, Serving(id));
          assert At(t, p, Serving(id));
        } else {
          assert id in u.notify;
        }
      }
    }
  }

  /** A goroutine pays what it owes. */
  lemma OnePaid(kind: Kind, s: State, pid: Pid) returns (t: State)
    requires Rested(s) && s.handler.Free? && s.notify == [] && pid in Unsettled(s.procs)
    ensures Leads(kind, s, t) && Rested(t) && t.handler.Free? && t.notify == [] && !t.failed
    ensures t.members == s.members && Unsettled(t.procs) == Unsettled(s.procs) - {pid}
  {
    match s.procs[pid]
    case Stored(_) =>
      var u := Go(kind, s, Notify(pid));
      assert Unsettled(u.procs) == Unsettled(s.procs) - {pid};
      t := AllNotified(kind, u);
      LeadsTrans(kind, s, u, t);
    case Announcing(_) => t := SentAndHandled(kind, s, SendFirst(pid));
    case Removed(_) => t := SentAndHandled(kind, s, SendLast(pid));
    case Starting => t := SentAndHandled(kind, s, SendStartup(pid));
  }

  lemma {:induction false} AllPaid(kind: Kind, s: State) returns (t: State)
    requires Rested(s) && s.handler.Free? && s.notify == []
    ensures Leads(kind, s, t) && Quiescent(t) && Rested(t) && t.members == s.members
    ensures if Unsettled(s.procs) != {} then !t.failed else t == s
    decreases |Unsettled(s.procs)|
  {
    LeadsSelf(kind, s);
    t := s;
    if Unsettled(s.procs) != {} {
      var pid :| pid in Unsettled(s.procs);
      var u := OnePaid(kind, s, pid);
      t := AllPaid(kind, u);
      LeadsTrans(kind, s, u, t);
    } else {
      assert forall pid :: pid in s.procs && !Settled(s.procs[pid]) ==> pid in Unsettled(s.procs);
    }
  }

  /** Wherever things stand while the consumer runs, without another change to the map
      everything can be handled, and unless nothing was outstanding the last build is good. */
  lemma Settles(kind: Kind, s: State) returns (t: State)
    requires !s.consumer.Stopped?
    ensures Leads(kind, s, t) && Quiescent(t) && Rested(t) && t.members == s.members && (t.failed ==> s.failed)
    ensures Unsettled(s.procs) != {} ==> !t.failed
  {
    var u := EventsHandled(kind, s);
    t := HandlerSends(kind, u);
    LeadsTrans(kind, s, u, t);
    u := AllNotified(kind, t);
    LeadsTrans(kind, s, t, u);
    t := AllPaid(kind, u);
    LeadsTrans(kind, s, u, t);
  }

  lemma LedKeepsInv(kind: Kind, s: State, t: State)
    requires Inv(kind, s) && Leads(kind, s, t)
    ensures Inv(kind, t)
  {
    var next := (a, b) => QuietNext(kind, a, b);
    var inv := x => Inv(kind, x);
    forall a, b | inv(a) && next(a, b)
      ensures inv(b)
    {
      assert Next(kind, a, b);
      StepKeepsInv(kind, a, b);
    }
    ReachesKeeps(next, inv, s, t);
  }

  lemma LedIsExact(kind: Kind, s: State, t: State)
    requires Inv(kind, s) && Leads(kind, s, t) && Quiescent(t) && !t.failed
    ensures t.view == t.members && t.published
  {
    LedKeepsInv(kind, s, t);
    QuiescentInvIsExact(kind, t);
  }

  /** From every state of every run in which the consumer runs, a quiescent state can be
      reached with the map as it is; the published value is that of the map, unless the
      last build failed and nothing was outstanding. */
  lemma CanSettle(kind: Kind, trace: seq<State>, k: nat) returns (t: State)
    requires IsCacheRun(kind, trace) && k < |trace| && !trace[k].consumer.Stopped?
    ensures Leads(kind, trace[k], t) && Quiescent(t) && t.members == trace[k].members
    ensures !trace[k].failed ==> t.view == t.members
  {
    t := Settles(kind, trace[k]);
    if !trace[k].failed {
      RunKeepsInv(kind, trace, k);
      LedIsExact(kind, trace[k], t);
    }
  }

  /** Whoever connects can come to be published, from wherever a run has come, failed builds
      or not. */
  lemma ConnectingPublishes(kind: Kind, trace: seq<State>, k: nat, pid: Pid, id: Id) returns (t: State)
    requires IsCacheRun(kind, trace) && k < |trace| && !trace[k].consumer.Stopped? && pid !in trace[k].procs
    ensures Leads(kind, Apply(kind, trace[k], Store(pid, id)), t) && Quiescent(t)
    ensures t.view == trace[k].members + {id}
  {
    RunKeepsInv(kind, trace, k);
    var s := Apply(kind, trace[k], Store(pid, id));
    assert Next(kind, trace[k], s);
    StepKeepsInv(kind, trace[k], s);
    assert pid in Unsettled(s.procs);
    t := Settles(kind, s);
    LedIsExact(kind, s, t);
  }

  lemma RemovingUnpublishes(kind: Kind, s: State, pid: Pid, id: Id) returns (t: State)
    requires Inv(kind, s) && !s.consumer.Stopped? && At(s, pid, Removing(id))
    ensures Leads(kind, s, t) && Quiescent(t) && t.view == s.members - {id}
  {
    var u := Go(kind, s, Delete(pid));
    assert pid in Unsettled(u.procs);
    t := Settles(kind, u);
    LeadsTrans(kind, s, u, t);
    LedIsExact(kind, s, t);
  }

  /** Whoever is served and disconnects can come to be published no more ... */
  lemma DisconnectingUnpublishes(kind: Kind, trace: seq<State>, k: nat, pid: Pid, id: Id) returns (t: State)
    requires IsCacheRun(kind, trace) && k < |trace| && !trace[k].consumer.Stopped? && At(trace[k], pid, Serving(id))
    ensures Leads(kind, Apply(kind, trace[k], Close(pid)), t) && Quiescent(t) && t.view == trace[k].members - {id}
  {
    RunKeepsInv(kind, trace, k);
    var s := Go(kind, trace[k], Close(pid));
    LedKeepsInv(kind, trace[k], s);
    t := RemovingUnpublishes(kind, s, pid, id);
  }

  /** ... and so can a peer of which gossip says that it left. */
  lemma LeavingUnpublishes(trace: seq<State>, k: nat, pid: Pid, id: Id) returns (t: State)
    requires IsCacheRun(Peers, trace) && k < |trace| && !trace[k].consumer.Stopped? && pid !in trace[k].procs
    ensures Leads(Peers, Apply(Peers, trace[k], Leave(pid, id)), t) && Quiescent(t)
    ensures t.view == trace[k].members - {id}
  {
    RunKeepsInv(Peers, trace, k);
    var s := Go(Peers, trace[k], Leave(pid, id));
    LedKeepsInv(Peers, trace[k], s);
    t := RemovingUnpublishes(Peers, s, pid, id);
  }

  lemma OneLeaves(kind: Kind, s: State, pid: Pid) returns (t: State)
    requires Quiescent(s) && Rested(s) && pid in s.procs
    ensures Leads(kind, s, t) && Quiescent(t) && Rested(t) && t.procs == s.procs - {pid}
  {
    if s.procs[pid].Serving? {
      t := Go(kind, s, Exit(pid));
    } else {
      var u := Go(kind, s, Delete(pid));
      t := SentAndHandled(kind, u, SendLast(pid));
      LeadsTrans(kind, s, u, t);
    }
  }

  lemma {:induction false} AllLeave(kind: Kind, s: State) returns (t: State)
    requires Quiescent(s) && Rested(s)
    ensures Leads(kind, s, t) && t.procs == map[] && t.consumer.Stopped?
    decreases |s.procs|
  {
    if s.procs == map[] {
      t := Go(kind, s, Stop);
    } else {
      var pid :| pid in s.procs;
      var u := OneLeaves(kind, s, pid);
      assert u.procs.Keys == s.procs.Keys - {pid};
      t := AllLeave(kind, u);
      LeadsTrans(kind, s, u, t);
    }
  }

  /** And everything can be shut down: no goroutine is ever stuck for good. */
  lemma CanShutDown(kind: Kind, trace: seq<State>, k: nat) returns (t: State)
    requires IsCacheRun(kind, trace) && k < |trace| && !trace[k].consumer.Stopped?
    ensures Leads(kind, trace[k], t) && t.procs == map[] && t.consumer.Stopped?
  {
    var s := Settles(kind, trace[k]);
    t := AllLeave(kind, s);
    LeadsTrans(kind, trace[k], s, t);
  }

  // ---- one session of a client at a time ----

  /** No session of a client is stored while another is kept. */
  ghost predicate Orderly(s: State, e: Event)
  {
    e.Store? ==> !Kept(s, e.id)
  }

  ghost predicate OrderlyNext(s: State, s': State)
  {
    exists e :: Enabled(Clients, s, e) && Orderly(s, e) && s' == Apply(Clients, s, e)
  }

  ghost predicate IsOrderlyRun(trace: seq<State>)
  {
    IsRun(s => Init(Clients, s), OrderlyNext, trace)
  }

  ghost predicate NoneKeeps(s: State, id: Id)
  {
    forall p :: p in s.procs ==> !Keeps(s.procs[p], id)
  }

  /** One goroutine at most, or one place in the queue, stands for id, and then id is in the map. */
  ghost predicate KeptOnce(s: State, id: Id)
  {
    && (forall p, q :: p in s.procs && q in s.procs && Keeps(s.procs[p], id) && Keeps(s.procs[q], id) ==> p == q)
    && (forall i, j :: 0 <= i < j < |s.notify| && s.notify[i] == id ==> s.notify[j] != id)
    && (id in s.notify ==> NoneKeeps(s, id))
    && (Kept(s, id) ==> id in s.members)
  }

  lemma StoreKeepsOnce(s: State, e: Event, id: Id)
    requires e.Store? && Enabled(Clients, s, e) && KeptOnce(s, id) && (e.id == id ==> !Kept(s, id))
    ensures KeptOnce(Apply(Clients, s, e), id)
  {
    var s' := Apply(Clients, s, e);
    if e.id != id && Kept(s', id) && id !in s'.notify {
      var p :| p in s'.procs && Keeps(s'.procs[p], id);
      assert p in s.procs && Keeps(s.procs[p], id);
    }
  }

  lemma NotifyKeepsOnce(s: State, e: Event, id: Id)
    requires e.Notify? && Enabled(Clients, s, e) && KeptOnce(s, id)
    ensures KeptOnce(Apply(Clients, s, e), id)
  {
    var s' := Apply(Clients, s, e);
    var x := s.procs[e.pid].id;
    if x == id {
      assert Keeps(s.procs[e.pid], id);
      assert Kept(s, id);
    } else if Kept(s', id) && id !in s'.notify {
      var p :| p in s'.procs && Keeps(s'.procs[p], id);
      assert p in s.procs && Keeps(s.procs[p], id);
    } else if Kept(s', id) {
      assert id in s.notify;
    }
  }

  lemma HandleKeepsOnce(s: State, e: Event, id: Id)
    requires e.Handle? && Enabled(Clients, s, e) && KeptOnce(s, id)
    ensures KeptOnce(Apply(Clients, s, e), id)
  {
    var s' := Apply(Clients, s, e);
    assert s.notify == [s.notify[0]] + s.notify[1..];
    if s.notify[0] == id {
      assert id !in s'.notify;
      assert id in s.notify;
    } else if Kept(s', id) && id !in s'.notify {
      var p :| p in s'.procs && Keeps(s'.procs[p], id);
      assert p in s.procs && Keeps(s.procs[p], id);
    }
  }

  lemma DeleteKeepsOnce(s: State, e: Event, id: Id)
    requires e.Delete? && Enabled(Clients, s, e) && KeptOnce(s, id)
    ensures KeptOnce(Apply(Clients, s, e), id)
  {
    var s' := Apply(Clients, s, e);
    if s.procs[e.pid].id == id {
      assert Keeps(s.procs[e.pid], id);
      assert !Kept(s', id);
    } else if Kept(s', id) && id !in s'.notify {
      var p :| p in s'.procs && Keeps(s'.procs[p], id);
      assert p in s.procs && Keeps(s.procs[p], id);
    }
  }

  lemma OthersKeepOnce(s: State, e: Event, id: Id)
    requires !e.Store? && !e.Notify? && !e.Handle? && !e.Delete?
    requires Enabled(Clients, s, e) && KeptOnce(s, id)
    ensures KeptOnce(Apply(Clients, s, e), id)
  {
    var s' := Apply(Clients, s, e);
    forall p | p in s'.procs && Keeps(s'.procs[p], id)
      ensures p in s.procs && Keeps(s.procs[p], id)
    {
    }
  }

  lemma StepKeepsOnce(s: State, e: Event, id: Id)
    requires Enabled(Clients, s, e) && KeptOnce(s, id) && (e.Store? && e.id == id ==> !Kept(s, id))
    ensures KeptOnce(Apply(Clients, s, e), id)
  {
    match e
    case Store(_, _) => StoreKeepsOnce(s, e, id);
    case Notify(_) => NotifyKeepsOnce(s, e, id);
    case Handle(_) => HandleKeepsOnce(s, e, id);
    case Delete(_) => DeleteKeepsOnce(s, e, id);
    case _ => OthersKeepOnce(s, e, id);
  }

  lemma OrderlyRunKeepsOnce(trace: seq<State>, k: nat, id: Id)
    requires IsOrderlyRun(trace) && k < |trace|
    ensures KeptOnce(trace[k], id)
  {
    var inv := s => KeptOnce(s, id);
    forall s, s' | inv(s) && OrderlyNext(s, s')
      ensures inv(s')
    {
      var e :| Enabled(Clients, s, e) && Orderly(s, e) && s' == Apply(Clients, s, e);
      StepKeepsOnce(s, e, id);
    }
    InvariantHolds(s => Init(Clients, s), OrderlyNext, inv, trace, k);
  }

  lemma OrderlyIsRun(trace: seq<State>)
    requires IsOrderlyRun(trace)
    ensures IsCacheRun(Clients, trace)
  {
    var next := (s, s') => Next(Clients, s, s');
    forall i | 0 < i < |trace|
      ensures next(trace[i - 1], trace[i])
    {
      assert OrderlyNext(trace[i - 1], trace[i]);
    }
  }

  /** As long as a client has one session at a time, the map holds exactly the clients whose
      session a goroutine or the queue stands for, and those left behind by a shutdown. */
  lemma MemberIffKept(trace: seq<State>, k: nat, id: Id)
    requires IsOrderlyRun(trace) && k < |trace| && id !in trace[k].exited
    ensures id in trace[k].members <==> Kept(trace[k], id)
  {
    OrderlyRunKeepsOnce(trace, k, id);
    OrderlyIsRun(trace);
    if id in trace[k].members {
      MemberIsKept(Clients, trace, k, id);
    }
  }

  /** A goroutine stands for a session of id that is not in the map. */
  ghost predicate Orphaned(s: State, id: Id)
  {
    Kept(s, id) && id !in s.members
  }

  /** A session of id that is up closes, while another stands at pid. */
  lemma ServedOrphans(s: State, t: State, p: Pid, pid: Pid, id: Id) returns (u: State)
    requires Leads(Clients, s, t) && p != pid && At(t, pid, Stored(id))
    requires At(t, p, Serving(id)) || At(t, p, Removing(id))
    ensures Leads(Clients, s, u) && Orphaned(u, id)
  {
    var v := t;
    if t.procs[p].Serving? {
      v := Go(Clients, t, Close(p));
      LeadsTrans(Clients, s, t, v);
    }
    u := Go(Clients, v, Delete(p));
    LeadsTrans(Clients, s, v, u);
    assert pid in u.procs && Keeps(u.procs[pid], id);
  }

  /** The consumer and the queue are brought to rest, and what owes still owes. */
  lemma QueueEmptied(s: State) returns (t: State)
    requires !s.consumer.Stopped?
    ensures Leads(Clients, s, t) && Rested(t) && t.handler.Free? && t.notify == []
    ensures StillOwing(s.procs, t.procs) && forall id :: id in s.notify ==> exists p :: At(t, p, Serving(id))
  {
    var u := EventsHandled(Clients, s);
    var v := HandlerSends(Clients, u);
    LeadsTrans(Clients, s, u, v);
    t := AllNotified(Clients, v);
    LeadsTrans(Clients, s, v, t);
  }

  /** Whatever stage the older session of id is at, it can come to close before the one at pid
      goes on. */
  lemma OlderOrphans(s: State, pid: Pid, q: Pid, id: Id) returns (u: State)
    requires !s.consumer.Stopped? && At(s, pid, Stored(id)) && q != pid && q in s.procs && Keeps(s.procs[q], id)
    ensures Leads(Clients, s, u) && Orphaned(u, id)
  {
    LeadsSelf(Clients, s);
    if Settled(s.procs[q]) {
      u := ServedOrphans(s, s, q, pid, id);
    } else {
      assert pid in Unsettled(s.procs) && q in Unsettled(s.procs);
      var t := QueueEmptied(s);
      if t.procs[q].Announcing? {
        var v := SentAndHandled(Clients, t, SendFirst(q));
        LeadsTrans(Clients, s, t, v);
        u := ServedOrphans(s, v, q, pid, id);
      } else {
        var v := Go(Clients, t, Notify(q));
        assert v.notify == [id] && pid in Unsettled(v.procs);
        LeadsTrans(Clients, s, t, v);
        var x := OneNotified(Clients, v);
        LeadsTrans(Clients, s, v, x);
        var p :| At(x, p, Serving(v.notify[0]));
        u := ServedOrphans(s, x, p, pid, id);
      }
    }
  }

  lemma QueuedOrphans(s: State, pid: Pid, id: Id) returns (u: State)
    requires !s.consumer.Stopped? && At(s, pid, Stored(id)) && id in s.notify
    ensures Leads(Clients, s, u) && Orphaned(u, id)
  {
    assert pid in Unsettled(s.procs);
    var t := QueueEmptied(s);
    var p :| At(t, p, Serving(id));
    u := ServedOrphans(s, t, p, pid, id);
  }

  lemma LedKeepsOnce(s: State, t: State, id: Id)
    requires KeptOnce(s, id) && Leads(Clients, s, t)
    ensures KeptOnce(t, id)
  {
    var next := (a, b) => QuietNext(Clients, a, b);
    var inv := x => KeptOnce(x, id);
    forall a, b | inv(a) && next(a, b)
      ensures inv(b)
    {
      var e: Event :| !e.Store? && Enabled(Clients, a, e) && b == Apply(Clients, a, e);
      StepKeepsOnce(a, e, id);
    }
    ReachesKeeps(next, inv, s, t);
  }

  /** The removal of a session goes by client, so it can take a newer session of the client
      out of the map.  While the server runs, storing a session leads to no session being
      served that is not in the map, before another is stored, iff no other session of that
      client is being stored, queued, served or removed. */
  lemma StoreSafeIff(trace: seq<State>, k: nat, pid: Pid, id: Id)
    requires IsOrderlyRun(trace) && k < |trace| && pid !in trace[k].procs && !trace[k].consumer.Stopped?
    ensures !Kept(trace[k], id)
            <==> forall t :: Leads(Clients, Apply(Clients, trace[k], Store(pid, id)), t) ==> !Orphaned(t, id)
  {
    OrderlyRunKeepsOnce(trace, k, id);
    var s := trace[k];
    var s' := Apply(Clients, s, Store(pid, id));
    if Kept(s, id) {
      var u;
      if id in s.notify {
        u := QueuedOrphans(s', pid, id);
      } else {
        var q :| q in s.procs && Keeps(s.procs[q], id);
        u := OlderOrphans(s', pid, q, id);
      }
      assert Orphaned(u, id);
    } else {
      StepKeepsOnce(s, Store(pid, id), id);
      forall t | Leads(Clients, s', t)
        ensures !Orphaned(t, id)
      {
        LedKeepsOnce(s', t, id);
      }
    }
  }

  /** It happens: a client's second session is stored before the first is announced. */
  lemma SecondSessionOrphaned(id: Id) returns (trace: seq<State>, t: State)
    ensures IsOrderlyRun(trace) && !trace[|trace| - 1].consumer.Stopped? && 1 !in trace[|trace| - 1].procs
    ensures Leads(Clients, Apply(Clients, trace[|trace| - 1], Store(1, id)), t) && Orphaned(t, id)
  {
    var s := State({}, map[], [], Free, [], Idle, {}, true, false, {}, {});
    var s' := Apply(Clients, s, Store(0, id));
    assert Orderly(s, Store(0, id)) && OrderlyNext(s, s');
    trace := [s, s'];
    assert 0 in s'.procs && Keeps(s'.procs[0], id);
    StoreSafeIff(trace, 1, 1, id);
    t :| Leads(Clients, Apply(Clients, s', Store(1, id)), t) && Orphaned(t, id);
  }

  ghost predicate Reachable(kind: Kind, s: State)
  {
    exists trace :: IsCacheRun(kind, trace) && trace[|trace| - 1] == s
  }

  lemma QuiescentReachable(kind: Kind, s: State)
    requires Reachable(kind, s) && Quiescent(s)
    ensures s.view == s.members <==> s.view == s.tried
  {
    var trace :| IsCacheRun(kind, trace) && trace[|trace| - 1] == s;
    FailedBuildHarmlessIff(kind, trace, |trace| - 1);
  }

  /** A run goes on with any enabled step. */
  lemma Continue(kind: Kind, trace: seq<State>, e: Event) returns (longer: seq<State>)
    requires IsCacheRun(kind, trace) && Enabled(kind, trace[|trace| - 1], e)
    ensures IsCacheRun(kind, longer)
    ensures longer == trace + [Apply(kind, trace[|trace| - 1], e)]
  {
    var s' := Apply(kind, trace[|trace| - 1], e);
    assert Next(kind, trace[|trace| - 1], s');
    Extend(s => Init(kind, s), (s, s') => Next(kind, s, s'), trace, s');
    longer := trace + [s'];
  }

  /** The exception is real: one failed build leaves the filter wrong with nothing outstanding. */
  lemma FailedBuildLosesUpdate(id: Id) returns (trace: seq<State>)
    ensures IsCacheRun(Clients, trace)
    ensures var s := trace[|trace| - 1];
      Quiescent(s) && s.failed && Stale(s, id) && !Outstanding(s, id)
  {
    trace := FirstEventTaken(id);
    trace := Continue(Clients, trace, Snapshot({id}));
    trace := Continue(Clients, trace, Fail);
  }

  /** Without the failure the same run ends settled. */
  lemma OneClientSettles(id: Id) returns (s: State)
    ensures Reachable(Clients, s) && Quiescent(s) && s.view == s.tried && s.members == {id}
  {
    var trace := FirstEventTaken(id);
    trace := Continue(Clients, trace, Snapshot({id}));
    trace := Continue(Clients, trace, Publish);
    s := trace[|trace| - 1];
  }

  lemma FirstEventTaken(id: Id) returns (trace: seq<State>)
    ensures IsCacheRun(Clients, trace)
    ensures trace[|trace| - 1]
            == State({id}, map[1 := Serving(id)], [], Free, [], Scanning({}), {}, true, false, {}, {})
  {
    trace := [State({}, map[], [], Free, [], Idle, {}, true, false, {}, {})];
    trace := Continue(Clients, trace, Store(0, id));
    trace := Continue(Clients, trace, Notify(0));
    trace := Continue(Clients, trace, Handle(1));
    trace := Continue(Clients, trace, SendFirst(1));
    trace := Continue(Clients, trace, Receive);
  }
}
