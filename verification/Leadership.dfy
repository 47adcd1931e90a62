/**
 Leader election inside one server: on every membership event the server takes the
 lowest PeerID among its connected peers and itself as the leader, and tells the leader
 timer to start or stop when that value changes.
 */
module Leadership {
  import opened EventCache
  import opened Runs

  const MAX_ID: Id := 0xFFFF_FFFF_FFFF_FFFF

  datatype Command = NoCommand | StartLeader | StopLeader

  ghost predicate IsLowest(x: Id, ids: set<Id>)
  {
    x in ids && forall y :: y in ids ==> x <= y
  }

  ghost function Elements(ids: seq<Id>): set<Id>
  {
    set i | 0 <= i < |ids| :: ids[i]
  }

  /** The minimum loop over the snapshot. */
  method LowestOf(peers: seq<Id>) returns (lowest: Id)
    ensures peers != [] ==> IsLowest(lowest, Elements(peers))
    ensures peers == [] ==> lowest == MAX_ID
  {
    lowest := MAX_ID;
    var i := 0;
    while i < |peers|
      invariant 0 <= i <= |peers|
      invariant forall j :: 0 <= j < i ==> lowest <= peers[j]
      invariant lowest == MAX_ID || lowest in peers[..i]
    {
      if peers[i] < lowest {
        lowest := peers[i];
      }
      i := i + 1;
    }
    if peers != [] && lowest == MAX_ID {
      assert peers[0] == lowest;
    }
  }

  /** What the timer is told when the leader goes from was to now. */
  function CommandFor(self: Id, was: Id, now: Id): Command
  {
    if was == now then NoCommand else if self == now then StartLeader else StopLeader
  }

  class Election {
    const self: Id
    var currentLeader: Id
    var lastLeader: Id

    constructor (self: Id)
      ensures this.self == self && currentLeader == 0 && lastLeader == 0
    {
      this.self := self;
      currentLeader, lastLeader := 0, 0;
    }

    /** One membership event, given the snapshot of the peers map. */
    method Recompute(snapshot: seq<Id>) returns (command: Command)
      modifies this`currentLeader, this`lastLeader
      ensures IsLowest(currentLeader, Elements(snapshot) + {self})
      ensures command == CommandFor(self, old(currentLeader), currentLeader)
      ensures lastLeader == if command.NoCommand? then old(lastLeader) else currentLeader
    {
      var peers := snapshot + [self];
      var lowest := LowestOf(peers);
      assert Elements(peers) == Elements(snapshot) + {self} by {
        assert forall x :: x in Elements(peers) <==> x in peers;
        assert forall x :: x in Elements(snapshot) <==> x in snapshot;
      }
      command := NoCommand;
      if currentLeader != lowest {
        currentLeader := lowest;
        lastLeader := lowest;
        command := if self == currentLeader then StartLeader else StopLeader;
      }
    }
  }

  // ---- the election as part of the whole server ----

  /** core: the peers map and its events.  commands: all commands sent to the timer so
      far.  owed: the command the consumer has yet to send before it takes another event. */
  datatype Server = Server(core: State, currentLeader: Id, commands: seq<Command>, owed: Command)

  ghost predicate Begin(s: Server)
  {
    Init(Peers, s.core) && s.currentLeader == 0 && s.commands == [] && s.owed.NoCommand?
  }

  ghost predicate CoreStep(self: Id, s: Server, s': Server)
  {
    exists e :: Enabled(Peers, s.core, e) && s'.core == Apply(Peers, s.core, e)
             && s'.commands == s.commands
             && (e.Receive? || e.Stop? ==> s.owed.NoCommand?)
             && if e.Publish? then
                  && IsLowest(s'.currentLeader, s.core.consumer.snapshot + {self})
                  && s'.owed == CommandFor(self, s.currentLeader, s'.currentLeader)
                else
                  s'.currentLeader == s.currentLeader && s'.owed == s.owed
  }

  ghost predicate SendCommand(s: Server, s': Server)
  {
    !s.owed.NoCommand? && s' == s.(commands := s.commands + [s.owed], owed := NoCommand)
  }

  ghost predicate Step(self: Id, s: Server, s': Server)
  {
    CoreStep(self, s, s') || SendCommand(s, s')
  }

  ghost predicate IsServerRun(self: Id, trace: seq<Server>)
  {
    IsRun(Begin, (s, s') => Step(self, s, s'), trace)
  }

  /** The latest word to the timer, including the one about to be sent. */
  function Told(s: Server): Command
  {
    if !s.owed.NoCommand? then s.owed
    else if s.commands != [] then s.commands[|s.commands| - 1]
    else NoCommand
  }

  ghost predicate Inv(self: Id, s: Server)
  {
    && EventCache.Inv(Peers, s.core)
    && (Busy(s.core.consumer) ==> s.owed.NoCommand?)
    && (s.core.published ==> IsLowest(s.currentLeader, s.core.view + {self}))
    && (!s.core.published ==> s.currentLeader == 0)
    && (forall i :: 0 <= i < |s.commands| ==> !s.commands[i].NoCommand?)
    && (self != 0 ==> (Told(s).StartLeader? <==> s.currentLeader == self))
    && (self == 0 ==> s.currentLeader == 0 && s.commands == [] && s.owed.NoCommand?)
  }

  lemma CoreStepKeepsInv(self: Id, s: Server, s': Server)
    requires Inv(self, s) && CoreStep(self, s, s')
    ensures Inv(self, s')
  {
    var e :| Enabled(Peers, s.core, e) && s'.core == Apply(Peers, s.core, e)
             && s'.commands == s.commands
             && (e.Receive? || e.Stop? ==> s.owed.NoCommand?)
             && if e.Publish? then
                  && IsLowest(s'.currentLeader, s.core.consumer.snapshot + {self})
                  && s'.owed == CommandFor(self, s.currentLeader, s'.currentLeader)
                else
                  s'.currentLeader == s.currentLeader && s'.owed == s.owed;
    assert Next(Peers, s.core, s'.core);
    StepKeepsInv(Peers, s.core, s'.core);
    if e.Publish? && self == 0 {
      assert self in s.core.consumer.snapshot + {self};
    }
  }

  lemma StepsKeepInv(self: Id)
    ensures forall s, s' :: Inv(self, s) && Step(self, s, s') ==> Inv(self, s')
  {
    forall s, s' | Inv(self, s) && Step(self, s, s')
      ensures Inv(self, s')
    {
      if CoreStep(self, s, s') {
        CoreStepKeepsInv(self, s, s');
      }
    }
  }

  lemma RunKeepsServerInv(self: Id, trace: seq<Server>, k: nat)
    requires IsServerRun(self, trace) && k < |trace|
    ensures Inv(self, trace[k])
  {
    var next := (s, s') => Step(self, s, s');
    var inv := s => Inv(self, s);
    forall s | Begin(s)
      ensures inv(s)
    {
      assert At(s.core, 0, Starting);
    }
    StepsKeepInv(self);
    InvariantHolds(Begin, next, inv, trace, k);
  }

  // ---- results ----

  /** In every interleaving currentLeader is the minimum of the peers map and self, unless
      the startup event or an event for some changed peer is still outstanding. */
  lemma LeaderIsLowest(self: Id, trace: seq<Server>, k: nat)
    requires IsServerRun(self, trace) && k < |trace|
    ensures var s := trace[k];
      || IsLowest(s.currentLeader, s.core.members + {self})
      || StartupOutstanding(s.core)
      || exists id: Id :: Stale(s.core, id) && Outstanding(s.core, id)
  {
    RunKeepsServerInv(self, trace, k);
    var s := trace[k].core;
    if s.view != s.members {
      var id :| id in (s.view - s.members) + (s.members - s.view);
      assert Stale(s, id) && InvAt(s, id);
    }
  }

  /** At quiescence the leader is exact. */
  lemma QuiescentLeader(self: Id, trace: seq<Server>, k: nat)
    requires IsServerRun(self, trace) && k < |trace|
    requires Quiescent(trace[k].core)
    ensures IsLowest(trace[k].currentLeader, trace[k].core.members + {self})
  {
    LeaderIsLowest(self, trace, k);
    assert forall id: Id :: !Outstanding(trace[k].core, id);
  }

  /** The timer is told to run exactly while the server believes it leads, and this holds
      in every state of every run just when the PeerID is not zero: a server numbered
      zero finds its own number already stored and never starts its timer. */
  lemma TimerFollowsLeader(self: Id, trace: seq<Server>, k: nat)
    requires IsServerRun(self, trace) && k < |trace|
    ensures (Told(trace[k]).StartLeader? <==> trace[k].currentLeader == self) <==> self != 0
  {
    RunKeepsServerInv(self, trace, k);
  }

  // ---- the election can come to its end ----

  ghost predicate LeadsTo(self: Id, s: Server, t: Server)
  {
    Reaches((a, b) => Step(self, a, b), s, t)
  }

  lemma LeadsToTrans(self: Id, s: Server, t: Server, u: Server)
    requires LeadsTo(self, s, t) && LeadsTo(self, t, u)
    ensures LeadsTo(self, s, u)
  {
    ReachesTrans((a, b) => Step(self, a, b), s, t, u);
  }

  lemma OneStep(self: Id, s: Server, t: Server)
    requires Step(self, s, t)
    ensures LeadsTo(self, s, t)
  {
    var step := (a, b) => Step(self, a, b);
    ReachesSelf(step, s);
    ReachesStep(step, s, s, t);
  }

  lemma {:induction false} SomeLowest(ids: set<Id>) returns (x: Id)
    requires ids != {}
    ensures IsLowest(x, ids)
    decreases |ids|
  {
    var y :| y in ids;
    x := y;
    if ids != {y} {
      assert ids - {y} != {};
      var z := SomeLowest(ids - {y});
      x := if y < z then y else z;
      assert forall i :: i in ids ==> i == y || i in ids - {y};
    } else {
      assert forall i :: i in ids ==> i == y;
    }
  }

  /** The consumer sends the command it owes. */
  lemma CommandSent(self: Id, s: Server) returns (t: Server)
    ensures LeadsTo(self, s, t) && t.core == s.core && t.owed.NoCommand? && t.currentLeader == s.currentLeader
  {
    ReachesSelf((a, b) => Step(self, a, b), s);
    t := s;
    if !s.owed.NoCommand? {
      t := s.(commands := s.commands + [s.owed], owed := NoCommand);
      OneStep(self, s, t);
    }
  }

  /** A step of the core is a step of the server, and a command. */
  lemma CoreStepTaken(self: Id, s: Server, core: State) returns (t: Server)
    requires s.owed.NoCommand? && Next(Peers, s.core, core)
    ensures LeadsTo(self, s, t) && t.core == core && t.owed.NoCommand?
  {
    var e :| Enabled(Peers, s.core, e) && core == Apply(Peers, s.core, e);
    var u := s.(core := core);
    if e.Publish? {
      var lowest := SomeLowest(s.core.consumer.snapshot + {self});
      u := u.(currentLeader := lowest, owed := CommandFor(self, s.currentLeader, lowest));
    }
    assert CoreStep(self, s, u);
    OneStep(self, s, u);
    t := CommandSent(self, u);
    LeadsToTrans(self, s, u, t);
  }

  lemma {:induction false} CoreStepsTaken(self: Id, s: Server, trace: seq<State>, k: nat) returns (t: Server)
    requires s.owed.NoCommand? && k < |trace| && trace[0] == s.core
    requires forall i :: 0 < i < |trace| ==> Next(Peers, trace[i - 1], trace[i])
    ensures LeadsTo(self, s, t) && t.core == trace[k] && t.owed.NoCommand?
  {
    if k == 0 {
      ReachesSelf((a, b) => Step(self, a, b), s);
      t := s;
    } else {
      var u := CoreStepsTaken(self, s, trace, k - 1);
      t := CoreStepTaken(self, u, trace[k]);
      LeadsToTrans(self, s, u, t);
    }
  }

  lemma CorePathTaken(self: Id, s: Server, core: State) returns (t: Server)
    requires s.owed.NoCommand? && Leads(Peers, s.core, core)
    ensures LeadsTo(self, s, t) && t.core == core && t.owed.NoCommand?
  {
    var next := (a, b) => QuietNext(Peers, a, b);
    var trace := PathOf(next, s.core, core);
    forall i | 0 < i < |trace|
      ensures Next(Peers, trace[i - 1], trace[i])
    {
      assert next(trace[i - 1], trace[i]);
    }
    t := CoreStepsTaken(self, s, trace, |trace| - 1);
  }

  lemma InvAtRest(self: Id, s: Server)
    requires Inv(self, s) && Quiescent(s.core) && s.owed.NoCommand?
    ensures IsLowest(s.currentLeader, s.core.members + {self})
    ensures self != 0 ==> (s.commands != [] && s.commands[|s.commands| - 1].StartLeader? <==> s.currentLeader == self)
  {
    QuiescentInvIsExact(Peers, s.core);
  }

  /** From every state of every run in which the server runs, the election can come to its
      end with the peers as they are: the leader is the lowest, and unless the PeerID is 0
      the last command sent says whether that is the server itself. */
  lemma ElectionCanSettle(self: Id, trace: seq<Server>, k: nat) returns (t: Server)
    requires IsServerRun(self, trace) && k < |trace| && !trace[k].core.consumer.Stopped?
    ensures LeadsTo(self, trace[k], t) && Quiescent(t.core) && t.core.members == trace[k].core.members
    ensures t.owed.NoCommand? && IsLowest(t.currentLeader, t.core.members + {self})
    ensures self != 0 ==> (t.commands != [] && t.commands[|t.commands| - 1].StartLeader? <==> t.currentLeader == self)
  {
    RunKeepsServerInv(self, trace, k);
    var s := CommandSent(self, trace[k]);
    var core := Settles(Peers, s.core);
    t := CorePathTaken(self, s, core);
    LeadsToTrans(self, trace[k], s, t);
    StepsKeepInv(self);
    ReachesKeeps((a, b) => Step(self, a, b), x => Inv(self, x), trace[k], t);
    InvAtRest(self, t);
  }
}
