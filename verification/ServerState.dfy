/**
 What a server admits into its three indexes: sessions with peers, sessions with clients,
 and the graph of claims.  Everything that arrives from outside arrives as bytes.
 */
module ServerState {
  import opened BigEndian
  import opened Runs
  import opened Links
  import CC = ConnectedClients
  import opened Cluster
  import M = Meta
  import opened PeerGraph

  datatype View = View(clients: set<U64>, peers: set<U64>, graph: Graph)

  /** Who runs: its PeerID, its RespondOnly setting, the protocols it was built with. */
  datatype Self = Self(id: U64, respondOnly: bool, builtin: set<U8>)

  datatype Event =
    | PeerHandshake(got: seq<U8>, acceptable: seq<U8>)
    | NotifyJoin(meta: seq<U8>)
    | Reconcile(nodes: seq<M.Node>, i: nat)
    | GraphRemove(peer: U64)
    | PeersRemove(peer: U64)
    | Merge(buf: seq<U8>)
    | ClientHandshake(got: seq<U8>, acceptable: seq<U8>, clientID: U64)
    | ClientRemove(client: U64)

  /** Config.Validate: no session with peer 0 is ever built. */
  predicate Valid(peer: U64)
  {
    peer != 0
  }

  function FreshMeta(b: seq<U8>): M.MetaInfo
    requires |b| == M.META_SIZE
  {
    M.DecodeOver(M.Empty, b)
  }

  /** Whether the event leads to a map operation.  A join under the server's own PeerID
      ends the process, so no step follows it. */
  ghost predicate Enabled(me: Self, v: View, e: Event)
  {
    match e
    case PeerHandshake(got, acceptable) => PeerAccepted(me.id, got, acceptable, me.builtin)
    case NotifyJoin(b) =>
      && |b| == M.META_SIZE
      && var m := FreshMeta(b);
         m.peerID != me.id && ShouldReachOut(me.id, me.respondOnly, m.peerID, m.respondOnly) && Valid(m.peerID)
    case Reconcile(nodes, i) =>
      i < |nodes| && M.StickyDial(me.id, me.respondOnly, nodes, i) && Valid(M.NodeID(nodes[i]))
    case GraphRemove(_) => true
    case PeersRemove(_) => true
    case Merge(b) => CC.Decode(b).Ok? && CC.Decode(b).value.peer != me.id
    case ClientHandshake(got, acceptable, id) => ClientAccepted(got, acceptable, me.builtin) && Valid(id)
    case ClientRemove(_) => true
  }

  ghost function Apply(me: Self, v: View, e: Event): View
    requires Enabled(me, v, e)
  {
    match e
    case PeerHandshake(got, _) => v.(peers := v.peers + {DecodeLink(got).value.source})
    case NotifyJoin(b) => v.(peers := v.peers + {FreshMeta(b).peerID})
    case Reconcile(nodes, i) => v.(peers := v.peers + {M.NodeID(nodes[i])})
    case GraphRemove(p) => v.(graph := ApplyOp(v.graph, Op.Remove(p)))
    case PeersRemove(p) => v.(peers := v.peers - {p})
    case Merge(b) => v.(graph := ApplyOp(v.graph, Op.Replace(CC.Decode(b).value)))
    case ClientHandshake(_, _, id) => v.(clients := v.clients + {id})
    case ClientRemove(id) => v.(clients := v.clients - {id})
  }

  ghost predicate StepBy(me: Self, v: View, e: Event, v': View)
  {
    Enabled(me, v, e) && v' == Apply(me, v, e)
  }

  ghost predicate Next(me: Self, v: View, v': View)
  {
    exists e :: StepBy(me, v, e, v')
  }

  ghost predicate IsServerRun(me: Self, trace: seq<View>)
  {
    IsRun(v => v == View({}, {}, map[]), (v, v') => Next(me, v, v'), trace)
  }

  ghost predicate Inv(me: Self, v: View)
  {
    && 0 !in v.peers && me.id !in v.peers && 0 !in v.clients
    && me.id !in v.graph
    && forall p :: p in v.graph ==> v.graph[p].peer == p
  }

  lemma StepKeepsInv(me: Self, v: View, e: Event)
    requires Enabled(me, v, e) && Inv(me, v)
    ensures Inv(me, Apply(me, v, e))
  {
  }

  lemma RunKeepsInv(me: Self, trace: seq<View>, k: nat)
    requires IsServerRun(me, trace) && k < |trace|
    ensures Inv(me, trace[k])
  {
    var inv := v => Inv(me, v);
    var next := (v, v') => Next(me, v, v');
    forall v, v' | inv(v) && next(v, v')
      ensures inv(v')
    {
      var e :| StepBy(me, v, e, v');
      StepKeepsInv(me, v, e);
    }
    InvariantHolds(v => v == View({}, {}, map[]), next, inv, trace, k);
  }

  // ---- histories ----

  ghost predicate StepAt(me: Self, events: seq<Event>, trace: seq<View>, i: nat)
  {
    i < |events| && i + 1 < |trace| && StepBy(me, trace[i], events[i], trace[i + 1])
  }

  /** trace is the run in which events happen one after the other. */
  ghost predicate Happens(me: Self, events: seq<Event>, trace: seq<View>)
  {
    && |trace| == |events| + 1 && trace[0] == View({}, {}, map[])
    && forall i: nat :: i < |events| ==> StepAt(me, events, trace, i)
  }

  lemma HappensSnoc(me: Self, events: seq<Event>, trace: seq<View>, e: Event, v: View)
    requires Happens(me, events, trace) && StepBy(me, trace[|events|], e, v)
    ensures Happens(me, events + [e], trace + [v])
  {
    forall i: nat | i < |events + [e]|
      ensures StepAt(me, events + [e], trace + [v], i)
    {
      if i < |events| {
        assert StepAt(me, events, trace, i);
      }
    }
  }

  /** Every run has such events. */
  lemma {:induction false} EventsOf(me: Self, trace: seq<View>) returns (events: seq<Event>)
    requires IsServerRun(me, trace)
    ensures Happens(me, events, trace)
    decreases |trace|
  {
    events := [];
    var n := |trace| - 1;
    if n > 0 {
      LastStep(v => v == View({}, {}, map[]), (v, v') => Next(me, v, v'), trace);
      var e :| StepBy(me, trace[n - 1], e, trace[n]);
      events := EventsOf(me, trace[..n]);
      HappensSnoc(me, events, trace[..n], e, trace[n]);
      events := events + [e];
      assert trace == trace[..n] + [trace[n]];
    }
  }

  /** The session that e adds to the peers map: one that p opened and that was accepted, or
      one that this server opened because the dial rule says so, given what it takes for
      p's RespondOnly setting. */
  ghost predicate Admits(me: Self, e: Event, p: U64)
  {
    match e
    case PeerHandshake(got, acceptable) =>
      PeerAccepted(me.id, got, acceptable, me.builtin) && DecodeLink(got).value.source == p
    case NotifyJoin(b) =>
      && |b| == M.META_SIZE && FreshMeta(b).peerID == p && p != 0 && p != me.id
      && ShouldReachOut(me.id, me.respondOnly, p, FreshMeta(b).respondOnly)
    case Reconcile(nodes, i) =>
      && i < |nodes| && M.Decoded(nodes[i]) && M.NodeID(nodes[i]) == p && p != 0 && p != me.id && !nodes[i].session
      && ShouldReachOut(me.id, me.respondOnly, p, M.RespondOnlySeen(nodes, i))
    case _ => false
  }

  ghost predicate AdmitsClient(me: Self, e: Event, client: U64)
  {
    e.ClientHandshake? && e.clientID == client && client != 0 && ClientAccepted(e.got, e.acceptable, me.builtin)
  }

  /** Some event of the first k brought it in, and none after that took it out. */
  ghost predicate InSince(events: seq<Event>, k: nat, brings: Event -> bool, takes: Event)
    requires k <= |events|
  {
    exists i :: 0 <= i < k && brings(events[i]) && forall j :: i < j < k ==> events[j] != takes
  }

  lemma InSinceStep(events: seq<Event>, k: nat, brings: Event -> bool, takes: Event)
    requires k < |events| && !brings(takes)
    ensures InSince(events, k + 1, brings, takes)
            <==> brings(events[k]) || (InSince(events, k, brings, takes) && events[k] != takes)
  {
    if InSince(events, k, brings, takes) && events[k] != takes {
      var i :| 0 <= i < k && brings(events[i]) && forall j :: i < j < k ==> events[j] != takes;
      assert forall j :: i < j < k + 1 ==> events[j] != takes;
    }
  }

  /** p was admitted by one of the first k events and has not been removed since. */
  ghost predicate PeerIn(me: Self, events: seq<Event>, k: nat, p: U64)
    requires k <= |events|
  {
    InSince(events, k, e => Admits(me, e, p), PeersRemove(p))
  }

  ghost predicate ClientIn(me: Self, events: seq<Event>, k: nat, c: U64)
    requires k <= |events|
  {
    InSince(events, k, e => AdmitsClient(me, e, c), ClientRemove(c))
  }

  lemma PeerStep(me: Self, v: View, events: seq<Event>, k: nat, p: U64)
    requires k < |events| && Enabled(me, v, events[k]) && (p in v.peers <==> PeerIn(me, events, k, p))
    ensures p in Apply(me, v, events[k]).peers <==> PeerIn(me, events, k + 1, p)
  {
    InSinceStep(events, k, e => Admits(me, e, p), PeersRemove(p));
  }

  lemma ClientStep(me: Self, v: View, events: seq<Event>, k: nat, c: U64)
    requires k < |events| && Enabled(me, v, events[k]) && (c in v.clients <==> ClientIn(me, events, k, c))
    ensures c in Apply(me, v, events[k]).clients <==> ClientIn(me, events, k + 1, c)
  {
    InSinceStep(events, k, e => AdmitsClient(me, e, c), ClientRemove(c));
  }

  /** In every run a session with p is in the peers map iff it was admitted and p has not been
      removed since, and c is among the clients iff it was admitted and not removed since. */
  lemma {:induction false} AdmittedIff(me: Self, events: seq<Event>, trace: seq<View>, k: nat, p: U64, c: U64)
    requires Happens(me, events, trace) && k <= |events|
    ensures p in trace[k].peers <==> PeerIn(me, events, k, p)
    ensures c in trace[k].clients <==> ClientIn(me, events, k, c)
  {
    if k > 0 {
      AdmittedIff(me, events, trace, k - 1, p, c);
      assert StepAt(me, events, trace, k - 1);
      PeerStep(me, trace[k - 1], events, k - 1, p);
      ClientStep(me, trace[k - 1], events, k - 1, c);
    }
  }

  /** The operations on the graph among the events. */
  function GraphOps(events: seq<Event>): seq<Op>
  {
    if events == [] then []
    else GraphOps(events[..|events| - 1]) + match events[|events| - 1] {
      case GraphRemove(p) => [Op.Remove(p)]
      case Merge(b) => if CC.Decode(b).Ok? then [Op.Replace(CC.Decode(b).value)] else []
      case _ => []
    }
  }

  /** In every run the graph is what its operations leave, so all that holds of histories of
      the graph holds of the server's. */
  lemma {:induction false} GraphIsHistory(me: Self, events: seq<Event>, trace: seq<View>, k: nat)
    requires Happens(me, events, trace) && k <= |events|
    ensures trace[k].graph == After(GraphOps(events[..k]))
  {
    if k > 0 {
      GraphIsHistory(me, events, trace, k - 1);
      assert StepAt(me, events, trace, k - 1);
      assert events[..k][..k - 1] == events[..k - 1];
      var ops := GraphOps(events[..k - 1]);
      if events[k - 1].GraphRemove? {
        AfterSnoc(ops, Op.Remove(events[k - 1].peer));
      } else if events[k - 1].Merge? {
        AfterSnoc(ops, Op.Replace(CC.Decode(events[k - 1].buf).value));
      } else {
        assert GraphOps(events[..k]) == ops;
      }
    }
  }

  // ---- looking for a path ----

  datatype Path = Local | Via(peer: U64) | Nobody

  /** What findPath may return. */
  ghost predicate MayFind(v: View, has: CC.Membership, destination: U64, path: Path)
  {
    if destination in v.clients then path == Local
    else exists w :: WhoMay(v.graph, has, destination, w) && path == (if w in v.peers then Via(w) else Nobody)
  }

  method FindPath(clients: set<U64>, peers: set<U64>, index: Index, has: CC.Membership, destination: U64)
    returns (path: Path)
    ensures MayFind(View(clients, peers, index.peerFilter), has, destination, path)
  {
    if destination in clients {
      return Local;
    }
    var w := index.Who(has, destination);
    return if w in peers then Via(w) else Nobody;
  }

  /** Some state from i to j has the claim, or lacks it. */
  ghost predicate ClaimedDuring(
      trace: seq<View>, i: nat, j: nat, has: CC.Membership, destination: U64, peer: U64, yes: bool)
    requires i <= j < |trace|
  {
    exists m :: i <= m <= j && Claims(trace[m].graph, has, destination, peer) == yes
  }

  /** What Who may return when the graph changes while it is walked: it finds each entry as
      it is at some moment of the walk. */
  ghost predicate WhoMayDuring(
      trace: seq<View>, i: nat, j: nat, has: CC.Membership, destination: U64, peer: U64)
    requires i <= j < |trace|
  {
    || ClaimedDuring(trace, i, j, has, destination, peer, true)
    || (peer == 0 && forall p :: ClaimedDuring(trace, i, j, has, destination, p, false))
  }

  /** What findPath may return when the server goes on meanwhile: it looks among the clients
      at i, walks the graph from then to j, and looks for the session at k. */
  ghost predicate MayFindDuring(
      trace: seq<View>, i: nat, j: nat, k: nat, has: CC.Membership, destination: U64, path: Path)
    requires i <= j <= k < |trace|
  {
    if destination in trace[i].clients then path == Local
    else exists w ::
      WhoMayDuring(trace, i, j, has, destination, w) && path == (if w in trace[k].peers then Via(w) else Nobody)
  }

  lemma ClaimedAtOnce(trace: seq<View>, i: nat, has: CC.Membership, destination: U64, peer: U64, yes: bool)
    requires i < |trace|
    ensures ClaimedDuring(trace, i, i, has, destination, peer, yes)
            <==> Claims(trace[i].graph, has, destination, peer) == yes
  {
  }

  lemma WhoAtOnce(trace: seq<View>, i: nat, has: CC.Membership, destination: U64, peer: U64)
    requires i < |trace|
    ensures WhoMayDuring(trace, i, i, has, destination, peer) <==> WhoMay(trace[i].graph, has, destination, peer)
  {
    ClaimedAtOnce(trace, i, has, destination, peer, true);
    forall p
      ensures ClaimedDuring(trace, i, i, has, destination, p, false) <==> !Claims(trace[i].graph, has, destination, p)
    {
      ClaimedAtOnce(trace, i, has, destination, p, false);
    }
  }

  /** If all three happen at once it is the above. */
  lemma FindAtOnce(trace: seq<View>, i: nat, has: CC.Membership, destination: U64, path: Path)
    requires i < |trace|
    ensures MayFindDuring(trace, i, i, i, has, destination, path) <==> MayFind(trace[i], has, destination, path)
  {
    forall w
      ensures WhoMayDuring(trace, i, i, has, destination, w) <==> WhoMay(trace[i].graph, has, destination, w)
    {
      WhoAtOnce(trace, i, has, destination, w);
    }
  }

  /** Over every run, and whatever happens while findPath looks, a path by way of a peer is
      by way of one that claimed the destination at some moment of the walk and had a
      session at the end: never of 0, which Who returns for nobody, and never of the server
      itself.  A destination that is a client at the start is never sent away. */
  lemma PathIsHonest(
      me: Self, trace: seq<View>, i: nat, j: nat, k: nat, has: CC.Membership, destination: U64, path: Path)
    requires IsServerRun(me, trace) && i <= j <= k < |trace|
    requires MayFindDuring(trace, i, j, k, has, destination, path)
    ensures path.Local? <==> destination in trace[i].clients
    ensures path.Via? ==>
      && path.peer != 0 && path.peer != me.id && path.peer in trace[k].peers
      && exists m :: i <= m <= j && Claims(trace[m].graph, has, destination, path.peer)
  {
    RunKeepsInv(me, trace, k);
  }
}
