/**
 The index of which peer claims which clients.  Replace stores an incoming claim only if
 its checksum differs from the stored one's.
 */
module PeerGraph {
  import opened BigEndian
  import opened ConnectedClients
  import opened Results
  import opened Runs

  type Graph = map<U64, Claim>

  datatype Op = Replace(c: Claim) | Remove(peer: U64)

  function ApplyOp(g: Graph, op: Op): Graph
  {
    match op
    case Replace(c) => if c.peer in g && g[c.peer].crc == c.crc then g else g[c.peer := c]
    case Remove(p) => g - {p}
  }

  /** Some peer claims client. */
  predicate Claims(g: Graph, has: Membership, client: U64, peer: U64)
  {
    peer in g && has(g[peer].f, client)
  }

  /** What Who may return: the order in which the map is walked is not fixed. */
  ghost predicate WhoMay(g: Graph, has: Membership, client: U64, peer: U64)
  {
    Claims(g, has, client, peer) || (peer == 0 && forall p :: !Claims(g, has, client, p))
  }

  class Index {
    var peerFilter: Graph

    constructor ()
      ensures peerFilter == map[]
    {
      peerFilter := map[];
    }

    method Who(has: Membership, client: U64) returns (peer: U64)
      ensures WhoMay(peerFilter, has, client, peer)
    {
      peer := 0;
      var rest := peerFilter.Keys;
      while rest != {}
        invariant rest <= peerFilter.Keys
        invariant forall p :: p in peerFilter && p !in rest ==> !has(peerFilter[p].f, client)
        decreases |rest|
      {
        var key :| key in rest;
        if has(peerFilter[key].f, client) {
          return key;
        }
        rest := rest - {key};
      }
    }

    method Remove(peer: U64)
      modifies this
      ensures peerFilter == ApplyOp(old(peerFilter), Op.Remove(peer))
    {
      peerFilter := peerFilter - {peer};
    }

    method Replace(c: Claim) returns (modified: bool)
      modifies this
      ensures peerFilter == ApplyOp(old(peerFilter), Op.Replace(c))
      ensures modified <==> c.peer !in old(peerFilter) || old(peerFilter)[c.peer].crc != c.crc
      ensures c.peer in peerFilter && peerFilter[c.peer].crc == c.crc
    {
      if c.peer !in peerFilter {
        peerFilter := peerFilter[c.peer := c];
        modified := true;
      } else {
        modified := peerFilter[c.peer].crc != c.crc;
        if modified {
          peerFilter := peerFilter[c.peer := c];
        }
      }
    }
  }

  // ---- histories ----

  function After(ops: seq<Op>): Graph
  {
    if ops == [] then map[] else ApplyOp(After(ops[..|ops| - 1]), ops[|ops| - 1])
  }

  /** A plain map that keeps the last claim written. */
  function Plain(ops: seq<Op>): Graph
  {
    if ops == [] then map[]
    else match ops[|ops| - 1]
      case Replace(c) => Plain(ops[..|ops| - 1])[c.peer := c]
      case Remove(p) => Plain(ops[..|ops| - 1]) - {p}
  }

  /** Op i is the latest Replace for p, and no Remove of p came after it. */
  ghost predicate LatestReplace(ops: seq<Op>, p: U64, i: nat)
  {
    && i < |ops| && ops[i].Replace? && ops[i].c.peer == p
    && forall j :: i < j < |ops| ==> ops[j] != Remove(p) && !(ops[j].Replace? && ops[j].c.peer == p)
  }

  /** After every history, p is present iff it was replaced since its last removal, the
      stored checksum is that of the latest Replace, and the plain map holds that claim. */
  lemma {:induction false} PresentIff(ops: seq<Op>, p: U64)
    ensures p in After(ops) <==> exists i: nat :: LatestReplace(ops, p, i)
    ensures p in Plain(ops) <==> p in After(ops)
    ensures forall i: nat :: LatestReplace(ops, p, i) ==>
      p in After(ops) && After(ops)[p].crc == ops[i].c.crc && After(ops)[p].peer == p && Plain(ops)[p] == ops[i].c
  {
    if ops != [] {
      var n := |ops| - 1;
      var before := ops[..n];
      PresentIff(before, p);
      if ops[n].Replace? && ops[n].c.peer == p {
        assert LatestReplace(ops, p, n);
        assert forall i: nat :: LatestReplace(ops, p, i) ==> i == n;
      } else if ops[n] == Remove(p) {
        assert forall i: nat :: !LatestReplace(ops, p, i);
      } else {
        forall i: nat
          ensures LatestReplace(ops, p, i) <==> LatestReplace(before, p, i)
        {
          if LatestReplace(before, p, i) {
            forall j | i < j < |ops|
              ensures ops[j] != Remove(p) && !(ops[j].Replace? && ops[j].c.peer == p)
            {
              if j < n { assert ops[j] == before[j]; }
            }
          } else if LatestReplace(ops, p, i) {
            assert before[i] == ops[i];
            assert forall j :: i < j < n ==> before[j] == ops[j];
          }
        }
      }
    }
  }

  /** At n a claim arrives that differs from the last one written, yet has its checksum. */
  ghost predicate Collision(ops: seq<Op>, n: nat)
    requires n < |ops|
  {
    && ops[n].Replace?
    && var c := ops[n].c; var g := Plain(ops[..n]);
       c.peer in g && g[c.peer].crc == c.crc && g[c.peer] != c
  }

  /** The graph keeps step with the plain map throughout a history iff no claim in it
      arrives under the checksum of a different one. */
  lemma {:induction false} PlainIff(ops: seq<Op>)
    ensures (forall n :: 0 <= n <= |ops| ==> After(ops[..n]) == Plain(ops[..n]))
            <==> (forall n :: 0 <= n < |ops| ==> !Collision(ops, n))
  {
    if forall n :: 0 <= n < |ops| ==> !Collision(ops, n) {
      forall n | 0 <= n <= |ops|
        ensures After(ops[..n]) == Plain(ops[..n])
      {
        InStep(ops, n);
      }
    } else {
      var n :| 0 <= n < |ops| && Collision(ops, n);
      assert ops[..n + 1][..n] == ops[..n];
      if After(ops[..n]) == Plain(ops[..n]) {
        var c := ops[n].c;
        assert After(ops[..n + 1]) == ApplyOp(After(ops[..n]), ops[n]) == After(ops[..n]);
        assert Plain(ops[..n + 1])[c.peer] == c;
      }
    }
  }

  lemma {:induction false} InStep(ops: seq<Op>, n: nat)
    requires n <= |ops| && forall m :: 0 <= m < |ops| ==> !Collision(ops, m)
    ensures After(ops[..n]) == Plain(ops[..n])
  {
    if n > 0 {
      InStep(ops, n - 1);
      assert ops[..n][..n - 1] == ops[..n - 1];
      assert !Collision(ops, n - 1);
      if ops[n - 1].Replace? {
        var c := ops[n - 1].c;
        var g := Plain(ops[..n - 1]);
        if c.peer in g && g[c.peer].crc == c.crc {
          assert g[c.peer := c] == g;
        }
      }
    }
  }

  // ---- one merging goroutine, any number of removing ones ----

  /** Replace is two map operations, and Remove may come between them.  merging: the claim
      of a Replace that found an entry with another checksum and is about to store; log:
      each operation, at the moment it takes effect; begun: all claims Replace was called
      with, in order. */
  datatype Shared = Shared(graph: Graph, merging: Option<Claim>, log: seq<Op>, begun: seq<Claim>)

  const Nothing := Shared(map[], None, [], [])

  datatype Step = LoadOrStore(c: Claim) | Store | Delete(peer: U64)

  predicate Enabled(s: Shared, e: Step)
  {
    match e
    case LoadOrStore(_) => s.merging.None?
    case Store => s.merging.Some?
    case Delete(_) => true
  }

  function Apply(s: Shared, e: Step): Shared
    requires Enabled(s, e)
  {
    match e
    case LoadOrStore(c) =>
      var s1 := s.(begun := s.begun + [c]);
      if c.peer !in s.graph then s1.(graph := s.graph[c.peer := c], log := s.log + [Replace(c)])
      else if s.graph[c.peer].crc == c.crc then s1.(log := s.log + [Replace(c)])
      else s1.(merging := Some(c))
    case Store =>
      var c := s.merging.value;
      s.(graph := s.graph[c.peer := c], merging := None, log := s.log + [Replace(c)])
    case Delete(p) => s.(graph := s.graph - {p}, log := s.log + [Remove(p)])
  }

  ghost predicate Next(s: Shared, s': Shared)
  {
    exists e :: Enabled(s, e) && s' == Apply(s, e)
  }

  ghost predicate IsGraphRun(trace: seq<Shared>)
  {
    IsRun(s => s == Nothing, Next, trace)
  }

  ghost predicate Inv(s: Shared)
  {
    && s.graph == After(s.log)
    && (s.merging.Some? && s.merging.value.peer in s.graph ==>
          s.graph[s.merging.value.peer].crc != s.merging.value.crc)
  }

  lemma AfterSnoc(ops: seq<Op>, op: Op)
    ensures After(ops + [op]) == ApplyOp(After(ops), op)
  {
    assert (ops + [op])[..|ops|] == ops;
  }

  lemma StepKeepsInv(s: Shared, e: Step)
    requires Enabled(s, e) && Inv(s)
    ensures Inv(Apply(s, e))
  {
    match e
    case LoadOrStore(c) => AfterSnoc(s.log, Replace(c));
    case Store => AfterSnoc(s.log, Replace(s.merging.value));
    case Delete(p) => AfterSnoc(s.log, Remove(p));
  }

  /** With one goroutine merging, as the server has, the two steps of Replace cannot be told
      from one: in every interleaving the graph is what the logged operations, done one
      after the other, leave, so all that holds of histories holds of concurrent runs. */
  lemma ReplaceLinearizes(trace: seq<Shared>, k: nat)
    requires IsGraphRun(trace) && k < |trace|
    ensures trace[k].graph == After(trace[k].log)
  {
    forall s, s' | Inv(s) && Next(s, s')
      ensures Inv(s')
    {
      var e :| Enabled(s, e) && s' == Apply(s, e);
      StepKeepsInv(s, e);
    }
    InvariantHolds(s => s == Nothing, Next, Inv, trace, k);
  }

  /** The claims of the Replace operations in ops, in order. */
  function Replaces(ops: seq<Op>): seq<Claim>
  {
    if ops == [] then []
    else Replaces(ops[..|ops| - 1]) + if ops[|ops| - 1].Replace? then [ops[|ops| - 1].c] else []
  }

  lemma ReplacesSnoc(ops: seq<Op>, op: Op)
    ensures Replaces(ops + [op]) == Replaces(ops) + if op.Replace? then [op.c] else []
  {
    assert (ops + [op])[..|ops|] == ops;
  }

  /** The claims that took effect, and then the one under way, are those begun. */
  predicate InOrder(s: Shared)
  {
    Replaces(s.log) + (if s.merging.Some? then [s.merging.value] else []) == s.begun
  }

  lemma StepKeepsOrder(s: Shared, e: Step)
    requires Enabled(s, e) && InOrder(s)
    ensures InOrder(Apply(s, e))
  {
    match e
    case LoadOrStore(c) => ReplacesSnoc(s.log, Replace(c));
    case Store => ReplacesSnoc(s.log, Replace(s.merging.value));
    case Delete(p) => ReplacesSnoc(s.log, Remove(p));
  }

  /** No claim is lost between the two steps of Replace: in every interleaving the claims
      take effect once each, in the order in which they arrived. */
  lemma MergesInOrder(trace: seq<Shared>, k: nat)
    requires IsGraphRun(trace) && k < |trace|
    ensures InOrder(trace[k])
  {
    forall s, s' | InOrder(s) && Next(s, s')
      ensures InOrder(s')
    {
      var e :| Enabled(s, e) && s' == Apply(s, e);
      StepKeepsOrder(s, e);
    }
    InvariantHolds(s => s == Nothing, Next, InOrder, trace, k);
  }

  lemma Go(s: Shared, e: Step) returns (s': Shared)
    requires Enabled(s, e)
    ensures s' == Apply(s, e) && Reaches(Next, s, s')
  {
    s' := Apply(s, e);
    assert Next(s, s');
    ReachesSelf(Next, s);
    ReachesStep(Next, s, s, s');
  }

  /** Every operation can take effect from wherever a run has come, once the merge under way
      is done: it then is the latest in the log, and the graph is the one before with the
      operation applied. */
  lemma OpTakesEffect(trace: seq<Shared>, k: nat, op: Op) returns (between: Shared, after: Shared)
    requires IsGraphRun(trace) && k < |trace|
    ensures Reaches(Next, trace[k], between) && between.merging.None?
    ensures between.log == trace[k].log + if trace[k].merging.Some? then [Replace(trace[k].merging.value)] else []
    ensures Reaches(Next, between, after) && after.merging.None? && after.log == between.log + [op]
    ensures after.graph == ApplyOp(between.graph, op)
  {
    between := trace[k];
    ReachesSelf(Next, between);
    if between.merging.Some? {
      between := Go(between, Store);
    }
    match op
    case Remove(p) =>
      after := Go(between, Delete(p));
    case Replace(c) =>
      after := Go(between, LoadOrStore(c));
      if after.merging.Some? {
        var stored := Go(after, Store);
        ReachesTrans(Next, between, after, stored);
        after := stored;
      }
  }
}
