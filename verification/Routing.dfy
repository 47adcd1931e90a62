/**
 Forwarding a stream through the cluster.  Each server looks for the destination among
 its own clients, then asks its graph, and passes the stream to the peer it is told;
 that peer does the same with the link it reads from the stream.
 */
module Routing {
  import opened BigEndian
  import opened Runs
  import opened Links
  import CC = ConnectedClients
  import opened PeerGraph
  import opened ServerState
  import opened EventCache
  import Results

  /** What each server knows.  Sessions lead to servers that exist. */
  type Net = map<U64, View>

  ghost predicate Closed(net: Net)
  {
    forall s :: s in net ==> net[s].peers <= net.Keys
  }

  datatype Transit =
    | InTransit(server: U64, link: Link, hops: nat)
    | Delivered(server: U64, link: Link, hops: nat)
    | NotFound(server: U64, link: Link, hops: nat)

  /** Forward at one server.  The graph may be walked in any order. */
  ghost predicate Forward(net: Net, has: CC.Membership, t: Transit, t': Transit)
  {
    && t.InTransit? && t.server in net
    && exists path :: MayFind(net[t.server], has, t.link.destination, path) && t' == Follow(t, path)
  }

  /** The next server reads the link from the stream it is handed. */
  ghost function Follow(t: Transit, path: Path): Transit
    requires t.InTransit?
  {
    match path
    case Local => Delivered(t.server, t.link, t.hops)
    case Via(p) => InTransit(p, Forwarded(t.link, [LINK_SIZE]), t.hops + 1)
    case Nobody => NotFound(t.server, t.link, t.hops)
  }

  ghost predicate IsRoute(net: Net, has: CC.Membership, start: U64, link: Link, trace: seq<Transit>)
  {
    IsRun(t => t == InTransit(start, link, 0), (t, t') => Forward(net, has, t, t'), trace)
  }

  /** Every claim about d that a server could follow names a server d is connected to. */
  ghost predicate TrueClaims(net: Net, has: CC.Membership, d: U64)
  {
    forall s, p :: s in net && p in net[s].peers && Claims(net[s].graph, has, d, p) ==>
      p in net && d in net[p].clients
  }

  /** Sessions never lead to 0; the runs of a server see to that. */
  ghost predicate NoZeroPeers(net: Net)
  {
    forall s :: s in net ==> 0 !in net[s].peers
  }

  /** Every server of net is at the end of a run of its own. */
  ghost predicate Reached(net: Net, selves: map<U64, Self>, runs: map<U64, seq<View>>)
  {
    && selves.Keys == net.Keys && runs.Keys == net.Keys
    && forall s :: s in net ==>
         selves[s].id == s && IsServerRun(selves[s], runs[s]) && net[s] == runs[s][|runs[s]| - 1]
  }

  lemma RunsHaveNoZeroPeers(net: Net, selves: map<U64, Self>, runs: map<U64, seq<View>>)
    requires Reached(net, selves, runs)
    ensures NoZeroPeers(net)
    ensures forall s :: s in net ==> s !in net[s].peers && s !in net[s].graph
  {
    forall s | s in net
      ensures 0 !in net[s].peers && s !in net[s].peers && s !in net[s].graph
    {
      ServerState.RunKeepsInv(selves[s], runs[s], |runs[s]| - 1);
    }
  }

  ghost predicate RouteInv(net: Net, link: Link, t: Transit)
  {
    && t.link == link && t.server in net && t.hops <= 1
    && (t.InTransit? && t.hops == 1 ==> link.destination in net[t.server].clients)
    && (t.Delivered? ==> link.destination in net[t.server].clients)
    && (t.NotFound? ==> link.destination !in net[t.server].clients && t.hops == 0)
  }

  lemma ForwardKeepsInv(net: Net, has: CC.Membership, link: Link, t: Transit, t': Transit)
    requires NoZeroPeers(net) && TrueClaims(net, has, link.destination)
    requires RouteInv(net, link, t) && Forward(net, has, t, t')
    ensures RouteInv(net, link, t')
    ensures t.hops == 1 ==> t'.Delivered?
  {
    FullReadsKeepLink(link, [LINK_SIZE]);
    var path :| MayFind(net[t.server], has, t.link.destination, path) && t' == Follow(t, path);
  }

  /** With true claims a stream is delivered to a server its destination is connected to,
      or is found missing where it started, after at most one hop and with its link
      unchanged, whatever order the graphs are walked in. */
  lemma AtMostOneHop(net: Net, has: CC.Membership, start: U64, link: Link, trace: seq<Transit>, k: nat)
    requires start in net && NoZeroPeers(net) && TrueClaims(net, has, link.destination)
    requires IsRoute(net, has, start, link, trace) && k < |trace|
    ensures RouteInv(net, link, trace[k])
    ensures k >= 2 ==> trace[k].Delivered?
  {
    var init := t => t == InTransit(start, link, 0);
    var next := (t, t') => Forward(net, has, t, t');
    var inv := t => RouteInv(net, link, t);
    forall t, t' | inv(t) && next(t, t')
      ensures inv(t')
    {
      ForwardKeepsInv(net, has, link, t, t');
    }
    InvariantHolds(init, next, inv, trace, k);
    if k >= 2 {
      SecondStep(net, has, start, link, trace, k);
    }
  }

  /** No route goes on after its second step. */
  lemma SecondStep(net: Net, has: CC.Membership, start: U64, link: Link, trace: seq<Transit>, k: nat)
    requires start in net && NoZeroPeers(net) && TrueClaims(net, has, link.destination)
    requires IsRoute(net, has, start, link, trace) && 2 <= k < |trace|
    ensures k == 2 && trace[2].Delivered?
  {
    var next := (t, t') => Forward(net, has, t, t');
    forall i | 0 <= i < |trace| - 1
      ensures trace[i].InTransit?
    {
      var j := i + 1;
      assert next(trace[j - 1], trace[j]);
    }
    assert next(trace[0], trace[1]) && next(trace[1], trace[2]);
    ForwardKeepsInv(net, has, link, trace[0], trace[1]);
    ForwardKeepsInv(net, has, link, trace[1], trace[2]);
  }

  /** A route never hangs: wherever the stream is, the server there does something. */
  lemma ForwardAlwaysPossible(net: Net, has: CC.Membership, t: Transit) returns (t': Transit)
    requires t.InTransit? && t.server in net
    ensures Forward(net, has, t, t')
  {
    var v := net[t.server];
    var d := t.link.destination;
    if d in v.clients {
      assert MayFind(v, has, d, Local);
      t' := Follow(t, Local);
    } else {
      var w: U64 := 0;
      if p: U64 :| Claims(v.graph, has, d, p) {
        w := p;
      }
      var path := if w in v.peers then Via(w) else Nobody;
      assert WhoMay(v.graph, has, d, w);
      assert MayFind(v, has, d, path);
      t' := Follow(t, path);
    }
  }

  // ---- exactly when the hop bound holds ----

  /** s follows a claim to p, which does not have d and follows a claim of its own. */
  ghost predicate Chain(net: Net, has: CC.Membership, d: U64, s: U64, p: U64, q: U64)
  {
    && s in net && d !in net[s].clients && Claims(net[s].graph, has, d, p) && p in net[s].peers
    && p in net && d !in net[p].clients && Claims(net[p].graph, has, d, q) && q in net[p].peers
  }

  ghost predicate HopBound(net: Net, has: CC.Membership, link: Link)
  {
    forall s: U64, trace: seq<Transit>, k: nat ::
      s in net && IsRoute(net, has, s, link, trace) && 0 <= k < |trace| ==> trace[k].hops <= 1
  }

  lemma FollowChain(net: Net, has: CC.Membership, link: Link, s: U64, p: U64, q: U64) returns (trace: seq<Transit>)
    requires Chain(net, has, link.destination, s, p, q)
    ensures IsRoute(net, has, s, link, trace) && |trace| == 3 && trace[2].hops == 2
  {
    FullReadsKeepLink(link, [LINK_SIZE]);
    trace := [InTransit(s, link, 0), InTransit(p, link, 1), InTransit(q, link, 2)];
    assert MayFind(net[s], has, link.destination, Via(p));
    assert MayFind(net[p], has, link.destination, Via(q));
    assert Follow(trace[0], Via(p)) == trace[1];
    assert Follow(trace[1], Via(q)) == trace[2];
    assert Forward(net, has, trace[0], trace[1]);
    assert Forward(net, has, trace[1], trace[2]);
  }

  ghost predicate ShortInv(net: Net, has: CC.Membership, link: Link, t: Transit)
  {
    && t.link == link && t.server in net && t.hops <= 1
    && (t.InTransit? && t.hops == 1 ==>
          exists s :: s in net && link.destination !in net[s].clients
                      && Claims(net[s].graph, has, link.destination, t.server) && t.server in net[s].peers)
  }

  lemma ForwardKeepsShort(net: Net, has: CC.Membership, link: Link, t: Transit, t': Transit)
    requires Closed(net) && NoZeroPeers(net)
    requires forall s, p, q :: !Chain(net, has, link.destination, s, p, q)
    requires ShortInv(net, has, link, t) && Forward(net, has, t, t')
    ensures ShortInv(net, has, link, t')
  {
    FullReadsKeepLink(link, [LINK_SIZE]);
    var path :| MayFind(net[t.server], has, t.link.destination, path) && t' == Follow(t, path);
    if path.Via? {
      assert Claims(net[t.server].graph, has, link.destination, path.peer);
      if t.hops == 1 {
        var s :| s in net && link.destination !in net[s].clients
                 && Claims(net[s].graph, has, link.destination, t.server) && t.server in net[s].peers;
        assert Chain(net, has, link.destination, s, t.server, path.peer);
      }
    }
  }

  /** No route from any server takes more than one hop iff no server can follow a claim to
      a server that lacks the destination and can follow a claim itself. */
  lemma HopBoundIff(net: Net, has: CC.Membership, link: Link)
    requires Closed(net) && NoZeroPeers(net)
    ensures HopBound(net, has, link) <==> forall s, p, q :: !Chain(net, has, link.destination, s, p, q)
  {
    if s, p, q :| Chain(net, has, link.destination, s, p, q) {
      var trace := FollowChain(net, has, link, s, p, q);
      assert trace[2].hops == 2;
    } else {
      forall s: U64, trace: seq<Transit>, k: nat | s in net && IsRoute(net, has, s, link, trace) && 0 <= k < |trace|
        ensures trace[k].hops <= 1
      {
        RouteIsShort(net, has, link, s, trace, k);
      }
    }
  }

  lemma RouteIsShort(net: Net, has: CC.Membership, link: Link, start: U64, trace: seq<Transit>, k: nat)
    requires Closed(net) && NoZeroPeers(net) && start in net
    requires forall s, p, q :: !Chain(net, has, link.destination, s, p, q)
    requires IsRoute(net, has, start, link, trace) && k < |trace|
    ensures trace[k].hops <= 1
  {
    var next := (t, t') => Forward(net, has, t, t');
    var inv := t => ShortInv(net, has, link, t);
    forall t, t' | inv(t) && next(t, t')
      ensures inv(t')
    {
      ForwardKeepsShort(net, has, link, t, t');
    }
    InvariantHolds(t => t == InTransit(start, link, 0), next, inv, trace, k);
  }

  /** Two servers whose filters each wrongly claim d for the other pass a stream back and
      forth for as many hops as one likes. */
  lemma {:induction false} Bounce(net: Net, has: CC.Membership, link: Link, a: U64, b: U64, n: nat)
    returns (trace: seq<Transit>)
    requires Chain(net, has, link.destination, a, b, a) && Chain(net, has, link.destination, b, a, b)
    ensures IsRoute(net, has, a, link, trace)
    ensures trace[|trace| - 1] == InTransit(if n % 2 == 0 then a else b, link, n)
  {
    if n == 0 {
      trace := [InTransit(a, link, 0)];
    } else {
      trace := Bounce(net, has, link, a, b, n - 1);
      FullReadsKeepLink(link, [LINK_SIZE]);
      var here, there := if (n - 1) % 2 == 0 then a else b, if n % 2 == 0 then a else b;
      var t := trace[|trace| - 1];
      assert MayFind(net[here], has, link.destination, Via(there));
      var t' := Follow(t, Via(there));
      assert Forward(net, has, t, t');
      Extend(t => t == InTransit(a, link, 0), (t, t') => Forward(net, has, t, t'), trace, t');
      trace := trace + [t'];
    }
  }

  // ---- a settled cluster ----

  /** What each server has published and merged: build makes a filter of a set of clients,
      crc is the checksum that goes with it, caches is where its bookkeeping of clients
      stands, graphs is how its graph came about. */
  datatype Gossip = Gossip(
    build: set<U64> -> CC.Filter, crc: map<U64, U64>, caches: map<U64, State>, graphs: map<U64, seq<Shared>>)

  /** A server has run its bookkeeping to quiescence, and its filter is of the keys that it
      last tried to build one for, as it is if the build did not fail. */
  ghost predicate CacheSettled(s: State, v: View)
  {
    Reachable(Clients, s) && Quiescent(s) && s.view == s.tried && s.members == v.clients
  }

  ghost function Published(g: Gossip, p: U64): CC.Claim
    requires p in g.caches && p in g.crc
  {
    CC.Claim(p, g.crc[p], g.build(g.caches[p].view))
  }

  /** A server's claim as it came over the wire. */
  ghost predicate Arrived(claim: CC.Claim, sent: CC.Claim)
  {
    |sent.f.fingerprints| <= MAX_LEN && CC.Decode(CC.Encode(sent)) == Results.Ok(claim)
  }

  ghost predicate Covers(net: Net, g: Gossip)
  {
    g.caches.Keys == net.Keys && g.crc.Keys == net.Keys && g.graphs.Keys == net.Keys
  }

  /** The last claim merged for p, if it was not removed since, is what p published. */
  ghost predicate UpToDate(net: Net, g: Gossip, log: seq<Op>, p: U64)
    requires Covers(net, g)
  {
    forall i: nat :: LatestReplace(log, p, i) ==> p in net && Arrived(log[i].c, Published(g, p))
  }

  /** The graph of s is the outcome of any interleaving of merges and removals.  No claim
      met a different one with its checksum, the last ones merged are up to date, and one
      was merged for every connected peer that has clients.  Servers without clients may
      have sent nothing, and servers that are not connected may have. */
  ghost predicate GraphSettled(net: Net, g: Gossip, s: U64)
    requires Covers(net, g) && s in net
  {
    var trace := g.graphs[s];
    && IsGraphRun(trace) && trace[|trace| - 1].graph == net[s].graph
    && var log := trace[|trace| - 1].log;
       && (forall n :: 0 <= n < |log| ==> !Collision(log, n))
       && (forall p :: UpToDate(net, g, log, p))
       && (forall p :: p in net[s].peers && p in net && net[p].clients != {} ==>
             exists i: nat :: LatestReplace(log, p, i))
  }

  /** The clients' events are handled and the claims have arrived. */
  ghost predicate GossipSettled(net: Net, g: Gossip)
  {
    && Covers(net, g)
    && (forall a :: a in net ==> CacheSettled(g.caches[a], net[a]))
    && (forall s :: s in net ==> GraphSettled(net, g, s))
  }

  /** The filters of the servers do not err about d. */
  ghost predicate Exact(net: Net, has: CC.Membership, build: set<U64> -> CC.Filter, d: U64)
  {
    forall p :: p in net ==> (has(build(net[p].clients), d) <==> d in net[p].clients)
  }

  /** What the graph of s claims about d and p is true, and what it could claim for a
      connected peer it does claim. */
  ghost predicate ClaimExact(net: Net, has: CC.Membership, d: U64, s: U64, p: U64)
    requires s in net
  {
    && (Claims(net[s].graph, has, d, p) ==> p in net && d in net[p].clients)
    && (p in net[s].peers && p in net && d in net[p].clients ==> Claims(net[s].graph, has, d, p))
  }

  ghost predicate ExactClaims(net: Net, has: CC.Membership, d: U64)
  {
    forall s, p :: s in net ==> ClaimExact(net, has, d, s, p)
  }

  /** A settled graph holds, for the peers it holds at all, what they published. */
  lemma SettledEntry(net: Net, g: Gossip, s: U64, p: U64)
    requires Covers(net, g) && s in net && GraphSettled(net, g, s)
    ensures p in net[s].graph ==> p in net && Arrived(net[s].graph[p], Published(g, p))
    ensures p in net[s].peers && p in net && net[p].clients != {} ==> p in net[s].graph
  {
    var trace := g.graphs[s];
    var log := trace[|trace| - 1].log;
    ReplaceLinearizes(trace, |trace| - 1);
    PresentIff(log, p);
    PlainIff(log);
    assert log[..|log|] == log;
    assert UpToDate(net, g, log, p);
  }

  lemma SettledClaim(net: Net, g: Gossip, has: CC.Membership, d: U64, s: U64, p: U64)
    requires GossipSettled(net, g) && Exact(net, has, g.build, d)
    requires s in net
    ensures ClaimExact(net, has, d, s, p)
  {
    SettledEntry(net, g, s, p);
    if p in net[s].graph {
      QuiescentReachable(Clients, g.caches[p]);
      CC.DecodeOfEncode(Published(g, p));
    }
  }

  /** In a settled cluster the claims about d are exact: the path from a client's event, by
      way of the cache, the filter, the wire and any interleaving of merges and removals,
      to the graphs of the others. */
  lemma SettledClaimsExact(net: Net, g: Gossip, has: CC.Membership, d: U64)
    requires GossipSettled(net, g) && Exact(net, has, g.build, d)
    ensures ExactClaims(net, has, d)
  {
    forall s, p | s in net
      ensures ClaimExact(net, has, d, s, p)
    {
      SettledClaim(net, g, has, d, s, p);
    }
  }

  /** Where a stream for the client of owner can be. */
  predicate OnTheWay(start: U64, owner: U64, link: Link, t: Transit)
  {
    || t == InTransit(start, link, 0)
    || (owner != start && t == InTransit(owner, link, 1))
    || t == Delivered(owner, link, if owner == start then 0 else 1)
  }

  /** d is connected to owner and to no other server. */
  ghost predicate OnlyOwner(net: Net, d: U64, owner: U64)
  {
    owner in net && forall a :: a in net ==> (d in net[a].clients <==> a == owner)
  }

  lemma ForwardKeepsOnTheWay(
      net: Net, has: CC.Membership, start: U64, owner: U64, link: Link, t: Transit, t': Transit)
    requires ExactClaims(net, has, link.destination) && OnlyOwner(net, link.destination, owner)
    requires start in net && (owner == start || owner in net[start].peers)
    requires OnTheWay(start, owner, link, t) && Forward(net, has, t, t')
    ensures OnTheWay(start, owner, link, t')
  {
    FullReadsKeepLink(link, [LINK_SIZE]);
    var d := link.destination;
    var path :| MayFind(net[t.server], has, d, path) && t' == Follow(t, path);
    if t.server != owner {
      var w :| WhoMay(net[start].graph, has, d, w) && path == (if w in net[start].peers then Via(w) else Nobody);
      assert ClaimExact(net, has, d, start, owner) && ClaimExact(net, has, d, start, w);
      assert w in net && d in net[w].clients && w == owner;
    }
  }

  /** With exact claims a client is reached from its own server and from every server
      connected to that one; the stream is never lost and never goes anywhere else. */
  lemma ExactClaimsDeliver(
      net: Net, has: CC.Membership, start: U64, owner: U64, link: Link, trace: seq<Transit>, k: nat)
    requires ExactClaims(net, has, link.destination) && OnlyOwner(net, link.destination, owner)
    requires start in net && (owner == start || owner in net[start].peers)
    requires IsRoute(net, has, start, link, trace) && k < |trace|
    ensures OnTheWay(start, owner, link, trace[k])
  {
    var next := (t, t') => Forward(net, has, t, t');
    var inv := t => OnTheWay(start, owner, link, t);
    forall t, t' | inv(t) && next(t, t')
      ensures inv(t')
    {
      ForwardKeepsOnTheWay(net, has, start, owner, link, t, t');
    }
    InvariantHolds(t => t == InTransit(start, link, 0), next, inv, trace, k);
  }

  /** From a server that is not connected to the client's own, the stream goes nowhere. */
  lemma UnconnectedNotFound(
      net: Net, has: CC.Membership, start: U64, owner: U64, link: Link, trace: seq<Transit>)
    requires ExactClaims(net, has, link.destination) && OnlyOwner(net, link.destination, owner)
    requires start in net && start != owner && owner !in net[start].peers && NoZeroPeers(net)
    requires IsRoute(net, has, start, link, trace) && !trace[|trace| - 1].InTransit?
    ensures trace[|trace| - 1] == NotFound(start, link, 0)
  {
    var d := link.destination;
    var next := (t, t') => Forward(net, has, t, t');
    var inv := t => t == InTransit(start, link, 0) || t == NotFound(start, link, 0);
    forall t, t' | inv(t) && next(t, t')
      ensures inv(t')
    {
      var path :| MayFind(net[start], has, d, path) && t' == Follow(t, path);
      var w :| WhoMay(net[start].graph, has, d, w) && path == (if w in net[start].peers then Via(w) else Nobody);
      assert ClaimExact(net, has, d, start, w);
    }
    InvariantHolds(t => t == InTransit(start, link, 0), next, inv, trace, |trace| - 1);
  }

  /** The whole way: once the clients' events are handled, the filters built, gossiped and
      merged, and as long as the servers' filters do not err about it, every stream for a
      client that reaches an end is delivered to it, in at most one hop and with its link
      unchanged, from its own server and every server connected to that one; from the
      others it is not found. */
  lemma SettledClusterDelivers(
      net: Net, g: Gossip, has: CC.Membership, start: U64, owner: U64, link: Link, trace: seq<Transit>)
    requires GossipSettled(net, g) && Exact(net, has, g.build, link.destination)
    requires OnlyOwner(net, link.destination, owner) && start in net
    requires IsRoute(net, has, start, link, trace) && !trace[|trace| - 1].InTransit?
    ensures owner == start ==> trace[|trace| - 1] == Delivered(owner, link, 0)
    ensures owner != start && owner in net[start].peers ==> trace[|trace| - 1] == Delivered(owner, link, 1)
    ensures owner != start && owner !in net[start].peers && NoZeroPeers(net) ==>
      trace[|trace| - 1] == NotFound(start, link, 0)
  {
    SettledClaimsExact(net, g, has, link.destination);
    if owner == start || owner in net[start].peers {
      ExactClaimsDeliver(net, has, start, owner, link, trace, |trace| - 1);
    } else if NoZeroPeers(net) {
      UnconnectedNotFound(net, has, start, owner, link, trace);
    }
  }

  // ---- such clusters exist ----

  /** A filter that tells some clients from none. */
  function Tell(clients: set<U64>): CC.Filter
  {
    CC.Filter(if clients == {} then 0 else 1, 0, 0, 0, 0, [])
  }

  /** The run of a graph that merges one claim. */
  lemma OneMerge(c: CC.Claim) returns (trace: seq<Shared>)
    ensures IsGraphRun(trace)
    ensures trace[|trace| - 1] == Shared(map[c.peer := c], Results.None, [Replace(c)], [c])
  {
    var empty := Nothing;
    var merged := Shared(map[c.peer := c], Results.None, [Replace(c)], [c]);
    assert PeerGraph.Apply(empty, LoadOrStore(c)) == merged;
    assert PeerGraph.Next(empty, merged);
    trace := [empty, merged];
  }

  lemma OneMergeSettled(net: Net, g: Gossip, s: U64, p: U64)
    requires Covers(net, g) && s in net && p in net && net[s].graph == map[p := Published(g, p)]
    requires |Published(g, p).f.fingerprints| <= MAX_LEN
    requires IsGraphRun(g.graphs[s])
    requires g.graphs[s][|g.graphs[s]| - 1]
             == Shared(net[s].graph, Results.None, [Replace(Published(g, p))], [Published(g, p)])
    requires net[s].peers <= {p}
    ensures GraphSettled(net, g, s)
  {
    var log := [Replace(Published(g, p))];
    CC.DecodeOfEncode(Published(g, p));
    assert LatestReplace(log, p, 0);
    assert forall q :: UpToDate(net, g, log, q);
  }

  lemma NothingHappened(s: State)
    requires Init(Clients, s)
    ensures Reachable(Clients, s)
  {
    assert IsCacheRun(Clients, [s]) && [s][|[s]| - 1] == s;
  }

  /** Two connected servers with one client between them settle: the one with the client
      has heard nothing of the other. */
  lemma OneSidedClusterSettles(d: U64) returns (net: Net, g: Gossip, has: CC.Membership)
    ensures GossipSettled(net, g) && Exact(net, has, g.build, d)
    ensures 1 in net && 2 in net && OnlyOwner(net, d, 1) && 1 in net[2].peers && 2 in net[1].peers
    ensures net[1].graph == map[]
  {
    has := (f: CC.Filter, c: U64) => f.seed == 1;
    var one := OneClientSettles(d);
    var two := State({}, map[], [], Free, [], Idle, {}, true, false, {}, {});
    NothingHappened(two);
    QuiescentReachable(Clients, one);
    var claim := CC.Claim(1, 0, Tell({d}));
    var merged := OneMerge(claim);
    net := map[1 := View({d}, {2}, map[]), 2 := View({}, {1}, map[1 := claim])];
    g := Gossip(Tell, map[1 := 0, 2 := 0], map[1 := one, 2 := two],
                map[1 := [Nothing], 2 := merged]);
    assert Published(g, 1) == claim;
    OneMergeSettled(net, g, 2, 1);
    assert GraphSettled(net, g, 1);
  }

  predicate Fits(f: CC.Filter)
  {
    |f.fingerprints| <= MAX_LEN
  }

  /** A server with one client and one peer, whose claim it merged. */
  function Paired(client: U64, claim: CC.Claim): View
  {
    View({client}, {claim.peer}, map[claim.peer := claim])
  }

  /** The run of a server that accepts a client, then the peer's session, then its claim. */
  lemma PairedRun(me: Self, client: U64, claim: CC.Claim) returns (trace: seq<View>)
    requires me.id != 0 && claim.peer != 0 && me.id != claim.peer && 1 in me.builtin && client != 0
    requires Fits(claim.f)
    ensures IsServerRun(me, trace) && |trace| == 4 && trace[3] == Paired(client, claim)
    ensures forall m :: 0 <= m < 4 ==> trace[m].peers <= {claim.peer}
  {
    var joining, offer := Link(0, 0, 1, ALPN_MULTIPLEXER), Link(claim.peer, me.id, 1, ALPN_MULTIPLEXER);
    LinkBijection(joining, []);
    LinkBijection(offer, []);
    CC.DecodeOfEncode(claim);
    var v0, v1, v2 := View({}, {}, map[]), View({client}, {}, map[]), View({client}, {claim.peer}, map[]);
    assert StepBy(me, v0, ClientHandshake(EncodeLink(joining), [1], client), v1);
    assert StepBy(me, v1, PeerHandshake(EncodeLink(offer), [1]), v2);
    assert StepBy(me, v2, Merge(CC.Encode(claim)), Paired(client, claim));
    assert ServerState.Next(me, v0, v1) && ServerState.Next(me, v1, v2);
    assert ServerState.Next(me, v2, Paired(client, claim));
    trace := [v0, v1, v2, Paired(client, claim)];
  }

  /** Two servers with a client each, which have merged what the other published. */
  function PairNet(build: set<U64> -> CC.Filter, c1: U64, c2: U64): Net
  {
    map[1 := Paired(c1, CC.Claim(2, 0, build({c2}))), 2 := Paired(c2, CC.Claim(1, 0, build({c1})))]
  }

  lemma PairSettles(build: set<U64> -> CC.Filter, c1: U64, c2: U64) returns (g: Gossip)
    requires Fits(build({c1})) && Fits(build({c2}))
    ensures g.build == build && GossipSettled(PairNet(build, c1, c2), g)
  {
    var one := OneClientSettles(c1);
    var two := OneClientSettles(c2);
    QuiescentReachable(Clients, one);
    QuiescentReachable(Clients, two);
    var claim1, claim2 := CC.Claim(1, 0, build({c1})), CC.Claim(2, 0, build({c2}));
    var merged1 := OneMerge(claim2);
    var merged2 := OneMerge(claim1);
    var net := PairNet(build, c1, c2);
    g := Gossip(build, map[1 := 0, 2 := 0], map[1 := one, 2 := two], map[1 := merged1, 2 := merged2]);
    assert Published(g, 1) == claim1 && Published(g, 2) == claim2;
    OneMergeSettled(net, g, 1, 2);
    OneMergeSettled(net, g, 2, 1);
  }

  lemma PairReached(build: set<U64> -> CC.Filter, c1: U64, c2: U64)
    returns (selves: map<U64, Self>, runs: map<U64, seq<View>>)
    requires c1 != 0 && c2 != 0 && Fits(build({c1})) && Fits(build({c2}))
    ensures Reached(PairNet(build, c1, c2), selves, runs)
  {
    var one, two := Self(1, false, {1}), Self(2, false, {1});
    var run1 := PairedRun(one, c1, CC.Claim(2, 0, build({c2})));
    var run2 := PairedRun(two, c2, CC.Claim(1, 0, build({c1})));
    selves := map[1 := one, 2 := two];
    runs := map[1 := run1, 2 := run2];
  }

  lemma PairBounces(has: CC.Membership, build: set<U64> -> CC.Filter, c1: U64, c2: U64, link: Link, n: nat)
    returns (trace: seq<Transit>)
    requires has(build({c1}), link.destination) && has(build({c2}), link.destination)
    requires link.destination != c1 && link.destination != c2
    ensures var net := PairNet(build, c1, c2);
      && Closed(net) && 1 in net && IsRoute(net, has, 1, link, trace)
      && forall s :: s in net ==> link.destination !in net[s].clients
    ensures trace[|trace| - 1].InTransit? && trace[|trace| - 1].hops == n
  {
    trace := Bounce(PairNet(build, c1, c2), has, link, 1, 2, n);
  }

  /** In a settled cluster nothing but the filters can be wrong, and that is enough: if
      those of two servers with a client each wrongly say yes to the destination, the two
      servers, reached by runs of their own, pass a stream on for as many hops as one likes. */
  lemma ErringFilterBounces(
      has: CC.Membership, build: set<U64> -> CC.Filter, c1: U64, c2: U64, link: Link, n: nat)
    returns (net: Net, g: Gossip, selves: map<U64, Self>, runs: map<U64, seq<View>>, trace: seq<Transit>)
    requires has(build({c1}), link.destination) && has(build({c2}), link.destination)
    requires c1 != 0 && c2 != 0 && link.destination != c1 && link.destination != c2
    requires Fits(build({c1})) && Fits(build({c2}))
    ensures g.build == build && GossipSettled(net, g) && Closed(net) && Reached(net, selves, runs)
    ensures forall s :: s in net ==> link.destination !in net[s].clients
    ensures 1 in net && IsRoute(net, has, 1, link, trace)
    ensures trace[|trace| - 1].InTransit? && trace[|trace| - 1].hops == n
  {
    net := PairNet(build, c1, c2);
    g := PairSettles(build, c1, c2);
    selves, runs := PairReached(build, c1, c2);
    trace := PairBounces(has, build, c1, c2, link, n);
  }

  // ---- a cluster that goes on while the stream travels ----

  /** The states of the cluster, moment by moment.  The servers are the same throughout; one
      that is gone has no sessions. */
  ghost predicate SameServers(nets: seq<Net>)
  {
    forall m :: 0 <= m < |nets| ==> nets[m].Keys == nets[0].Keys
  }

  ghost function Views(nets: seq<Net>, s: U64): (views: seq<View>)
    requires SameServers(nets) && |nets| > 0 && s in nets[0]
    ensures |views| == |nets| && forall m :: 0 <= m < |nets| ==> views[m] == nets[m][s]
  {
    seq(|nets|, m requires 0 <= m < |nets| => nets[m][s])
  }

  /** Every server goes through a run of its own, one step or none at a time. */
  ghost predicate IsClusterRun(nets: seq<Net>, selves: map<U64, Self>)
  {
    && |nets| > 0 && SameServers(nets) && selves.Keys == nets[0].Keys
    && (forall m :: 0 <= m < |nets| ==> Closed(nets[m]))
    && (forall s :: s in nets[0] ==> selves[s].id == s && IsServerRun(selves[s], Views(nets, s)))
  }

  /** A stream, and the moment it got where it is. */
  datatype Moving = Moving(at: nat, t: Transit)

  /** Forward at one server, with its three lookups at three moments. */
  ghost predicate ForwardAt(
      nets: seq<Net>, has: CC.Membership, x: Moving, x': Moving, i: nat, j: nat, path: Path)
    requires |nets| > 0 && SameServers(nets)
  {
    && x.t.InTransit? && x.t.server in nets[0] && x.at <= i <= j <= x'.at < |nets|
    && MayFindDuring(Views(nets, x.t.server), i, j, x'.at, has, x.t.link.destination, path)
    && x'.t == Follow(x.t, path)
  }

  ghost predicate ForwardDuring(nets: seq<Net>, has: CC.Membership, x: Moving, x': Moving)
    requires |nets| > 0 && SameServers(nets)
  {
    exists i, j, path :: ForwardAt(nets, has, x, x', i, j, path)
  }

  /** The stream sets out at the moment since. */
  ghost predicate IsMovingRoute(
      nets: seq<Net>, has: CC.Membership, since: nat, start: U64, link: Link, trace: seq<Moving>)
    requires |nets| > 0 && SameServers(nets)
  {
    IsRun(x => x == Moving(since, InTransit(start, link, 0)), (x, x') => ForwardDuring(nets, has, x, x'), trace)
  }

  /** What claims about d there are name owner, and no other server has d.  The claims need
      not be up to date: d may have left owner, or owner not be claimed yet. */
  ghost predicate PointsTo(net: Net, has: CC.Membership, d: U64, owner: U64)
  {
    && (forall s, p :: s in net && Claims(net[s].graph, has, d, p) ==> p == owner)
    && (forall s :: s in net && d in net[s].clients ==> s == owner)
  }

  ghost predicate AlwaysPointsTo(nets: seq<Net>, since: nat, has: CC.Membership, d: U64, owner: U64)
  {
    forall m :: since <= m < |nets| ==> PointsTo(nets[m], has, d, owner)
  }

  /** Where the stream can be. */
  predicate Underway(start: U64, owner: U64, link: Link, t: Transit)
  {
    || t == InTransit(start, link, 0) || t == NotFound(start, link, 0)
    || (start == owner && t == Delivered(owner, link, 0))
    || (start != owner && t in {InTransit(owner, link, 1), Delivered(owner, link, 1), NotFound(owner, link, 1)})
  }

  /** A path by way of a peer is by way of owner, and owner itself has none. */
  lemma PathLeadsToOwner(
      nets: seq<Net>, selves: map<U64, Self>, since: nat, has: CC.Membership, d: U64, owner: U64,
      s: U64, i: nat, j: nat, k: nat, path: Path)
    requires IsClusterRun(nets, selves) && AlwaysPointsTo(nets, since, has, d, owner)
    requires s in nets[0] && since <= i <= j <= k < |nets| && MayFindDuring(Views(nets, s), i, j, k, has, d, path)
    ensures path.Via? ==> path.peer == owner && s != owner && owner in nets[0]
    ensures path.Local? ==> s == owner
  {
    var views := Views(nets, s);
    PathIsHonest(selves[s], views, i, j, k, has, d, path);
    assert views[i] == nets[i][s] && PointsTo(nets[i], has, d, owner);
    if path.Via? {
      var m :| i <= m <= j && Claims(views[m].graph, has, d, path.peer);
      assert PointsTo(nets[m], has, d, owner);
      assert Closed(nets[k]) && path.peer in nets[k][s].peers;
    }
  }

  lemma ForwardKeepsUnderway(
      nets: seq<Net>, selves: map<U64, Self>, since: nat, has: CC.Membership, start: U64, owner: U64, link: Link,
      x: Moving, x': Moving)
    requires IsClusterRun(nets, selves) && AlwaysPointsTo(nets, since, has, link.destination, owner)
    requires x.at >= since && Underway(start, owner, link, x.t) && ForwardDuring(nets, has, x, x')
    ensures x'.at >= since && Underway(start, owner, link, x'.t)
  {
    FullReadsKeepLink(link, [LINK_SIZE]);
    var i, j, path :| ForwardAt(nets, has, x, x', i, j, path);
    PathLeadsToOwner(nets, selves, since, has, link.destination, owner, x.t.server, i, j, x'.at, path);
  }

  /** Whatever the servers do while the stream travels: as long as no claim about the
      destination names another server than owner meanwhile, the stream takes one hop at most, keeps
      its link, and is delivered at owner or not found, at the start or at owner. */
  lemma OneHopWhileChanging(
      nets: seq<Net>, selves: map<U64, Self>, since: nat, has: CC.Membership, start: U64, owner: U64, link: Link,
      trace: seq<Moving>, k: nat)
    requires IsClusterRun(nets, selves) && AlwaysPointsTo(nets, since, has, link.destination, owner)
    requires IsMovingRoute(nets, has, since, start, link, trace) && k < |trace|
    ensures Underway(start, owner, link, trace[k].t)
  {
    var next := (x, x') => ForwardDuring(nets, has, x, x');
    var inv := (x: Moving) => x.at >= since && Underway(start, owner, link, x.t);
    forall x, x' | inv(x) && next(x, x')
      ensures inv(x')
    {
      ForwardKeepsUnderway(nets, selves, since, has, start, owner, link, x, x');
    }
    InvariantHolds(x => x == Moving(since, InTransit(start, link, 0)), next, inv, trace, k);
  }

  /** The destination stays with owner, and start, unless it is owner, keeps its session
      with owner and its claim.  Everything else may change. */
  ghost predicate Steady(net: Net, has: CC.Membership, d: U64, start: U64, owner: U64)
  {
    && owner in net && d in net[owner].clients
    && (start != owner ==> start in net && owner in net[start].peers && Claims(net[start].graph, has, d, owner))
  }

  ghost predicate AlwaysSteady(
      nets: seq<Net>, since: nat, has: CC.Membership, d: U64, start: U64, owner: U64)
  {
    forall m :: since <= m < |nets| ==> Steady(nets[m], has, d, start, owner)
  }

  /** At owner the path is local, at start it is by way of owner. */
  lemma SteadyPath(
      nets: seq<Net>, selves: map<U64, Self>, since: nat, has: CC.Membership, d: U64, start: U64, owner: U64,
      s: U64, i: nat, j: nat, k: nat, path: Path)
    requires IsClusterRun(nets, selves) && AlwaysPointsTo(nets, since, has, d, owner)
    requires AlwaysSteady(nets, since, has, d, start, owner) && (s == start || s == owner)
    requires s in nets[0] && since <= i <= j <= k < |nets| && MayFindDuring(Views(nets, s), i, j, k, has, d, path)
    ensures path == if s == owner then Local else Via(owner)
  {
    var views := Views(nets, s);
    assert Steady(nets[i], has, d, start, owner) && views[i] == nets[i][s];
    if s != owner {
      assert PointsTo(nets[i], has, d, owner);
      var w :| WhoMayDuring(views, i, j, has, d, w) && path == (if w in views[k].peers then Via(w) else Nobody);
      StillClaimed(nets, since, has, d, start, owner, i, j);
      if ClaimedDuring(views, i, j, has, d, w, true) {
        var m :| i <= m <= j && Claims(views[m].graph, has, d, w);
        assert PointsTo(nets[m], has, d, owner);
      }
      assert Steady(nets[k], has, d, start, owner);
    }
  }

  lemma StillClaimed(
      nets: seq<Net>, since: nat, has: CC.Membership, d: U64, start: U64, owner: U64, i: nat, j: nat)
    requires |nets| > 0 && SameServers(nets) && start in nets[0] && start != owner
    requires AlwaysSteady(nets, since, has, d, start, owner) && since <= i <= j < |nets|
    ensures !ClaimedDuring(Views(nets, start), i, j, has, d, owner, false)
  {
    forall m | i <= m <= j
      ensures Claims(Views(nets, start)[m].graph, has, d, owner)
    {
      assert Steady(nets[m], has, d, start, owner);
    }
  }

  lemma FollowedSteadily(start: U64, owner: U64, link: Link, t: Transit, path: Path)
    requires OnTheWay(start, owner, link, t) && t.InTransit?
    requires path == if t.server == owner then Local else Via(owner)
    ensures OnTheWay(start, owner, link, Follow(t, path))
  {
    FullReadsKeepLink(link, [LINK_SIZE]);
  }

  lemma ForwardIsSteady(
      nets: seq<Net>, selves: map<U64, Self>, since: nat, has: CC.Membership, start: U64, owner: U64, link: Link,
      x: Moving, x': Moving)
    requires IsClusterRun(nets, selves) && AlwaysPointsTo(nets, since, has, link.destination, owner)
    requires AlwaysSteady(nets, since, has, link.destination, start, owner)
    requires x.at >= since && OnTheWay(start, owner, link, x.t) && ForwardDuring(nets, has, x, x')
    ensures x'.at >= since && OnTheWay(start, owner, link, x'.t)
  {
    var i, j, path :| ForwardAt(nets, has, x, x', i, j, path);
    SteadyPath(nets, selves, since, has, link.destination, start, owner, x.t.server, i, j, x'.at, path);
    FollowedSteadily(start, owner, link, x.t, path);
  }

  /** While that is steady every stream that reaches an end is delivered, in one hop at most,
      whatever else happens meanwhile. */
  lemma SteadyDelivers(
      nets: seq<Net>, selves: map<U64, Self>, since: nat, has: CC.Membership, start: U64, owner: U64, link: Link,
      trace: seq<Moving>)
    requires IsClusterRun(nets, selves) && AlwaysPointsTo(nets, since, has, link.destination, owner)
    requires AlwaysSteady(nets, since, has, link.destination, start, owner)
    requires IsMovingRoute(nets, has, since, start, link, trace) && !trace[|trace| - 1].t.InTransit?
    ensures trace[|trace| - 1].t == Delivered(owner, link, if owner == start then 0 else 1)
  {
    var next := (x, x') => ForwardDuring(nets, has, x, x');
    var inv := (x: Moving) => x.at >= since && OnTheWay(start, owner, link, x.t);
    forall x, x' | inv(x) && next(x, x')
      ensures inv(x')
    {
      ForwardIsSteady(nets, selves, since, has, start, owner, link, x, x');
    }
    InvariantHolds(x => x == Moving(since, InTransit(start, link, 0)), next, inv, trace, |trace| - 1);
  }

  /** Such a cluster: two servers come up, take a client each, meet and merge, and from then
      on a stream from the second server for the client of the first is delivered. */
  lemma PairIsSteady(has: CC.Membership, build: set<U64> -> CC.Filter, c1: U64, c2: U64)
    returns (nets: seq<Net>, selves: map<U64, Self>)
    requires c1 != 0 && c2 != 0 && c1 != c2 && Fits(build({c1})) && Fits(build({c2}))
    requires has(build({c1}), c1) && !has(build({c2}), c1)
    ensures IsClusterRun(nets, selves) && |nets| == 4 && nets[3] == PairNet(build, c1, c2)
    ensures AlwaysPointsTo(nets, 3, has, c1, 1) && AlwaysSteady(nets, 3, has, c1, 2, 1)
  {
    var one, two := Self(1, false, {1}), Self(2, false, {1});
    var run1 := PairedRun(one, c1, CC.Claim(2, 0, build({c2})));
    var run2 := PairedRun(two, c2, CC.Claim(1, 0, build({c1})));
    selves := map[1 := one, 2 := two];
    nets := seq(4, m requires 0 <= m < 4 => map[1 := run1[m], 2 := run2[m]]);
    assert Views(nets, 1) == run1 && Views(nets, 2) == run2;
    assert PointsTo(nets[3], has, c1, 1) && Steady(nets[3], has, c1, 2, 1);
  }
}
