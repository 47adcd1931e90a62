/**
 A whole cluster: who dials whom when servers discover each other through gossip, and
 what their separate elections add up to.  A cluster maps every PeerID to that server's
 RespondOnly setting; map keys are distinct, as the servers insist.
 */
module Cluster {
  import opened EventCache
  import opened Leadership

  type Members = map<Id, bool>

  /** shouldReachOut: whether self is the one to open the connection. */
  predicate ShouldReachOut(self: Id, selfRespondOnly: bool, peer: Id, peerRespondOnly: bool)
  {
    if selfRespondOnly then false
    else if !peerRespondOnly && peer < self then false
    else true
  }

  predicate Dials(c: Members, a: Id, b: Id)
    requires a in c && b in c
  {
    ShouldReachOut(a, c[a], b, c[b])
  }

  /** The peers map of a once every pair with a willing dialer is connected. */
  function Linked(c: Members, a: Id): set<Id>
    requires a in c
  {
    set b | b in c && b != a && (Dials(c, a, b) || Dials(c, b, a))
  }

  /** Each pair has exactly one dialer, except that two respond-only servers have none. */
  lemma ExactlyOneDialer(c: Members, a: Id, b: Id)
    requires a in c && b in c && a != b
    ensures (Dials(c, a, b) != Dials(c, b, a)) <==> !(c[a] && c[b])
    ensures !(Dials(c, a, b) && Dials(c, b, a))
  {
  }

  /** a, once settled, takes l for the leader. */
  ghost predicate Believes(c: Members, a: Id, l: Id)
    requires a in c
  {
    IsLowest(l, Linked(c, a) + {a})
  }

  ghost predicate Leads(c: Members, a: Id)
  {
    a in c && Believes(c, a, a)
  }

  /** A server that dials sees everyone and leads iff it is the least of all; a
      respond-only one sees only those that dial, and leads iff it is below each of them. */
  lemma LeadsIff(c: Members, a: Id)
    requires a in c
    ensures Leads(c, a) <==> forall b :: b in c && b != a && !(c[a] && c[b]) ==> a < b
  {
    forall b | b in c && b != a
      ensures b in Linked(c, a) <==> !(c[a] && c[b])
    {
      ExactlyOneDialer(c, a, b);
    }
  }

  /** Two servers that both believe they lead are both respond-only. */
  lemma RivalsRespondOnly(c: Members, a: Id, b: Id)
    requires Leads(c, a) && Leads(c, b) && a != b
    ensures c[a] && c[b]
  {
    LeadsIff(c, a);
    LeadsIff(c, b);
  }

  /** r is respond-only and below every server that dials. */
  ghost predicate LowResponder(c: Members, r: Id)
  {
    r in c && c[r] && forall n :: n in c && !c[n] ==> r < n
  }

  ghost predicate OneLeader(c: Members)
  {
    exists a :: Leads(c, a) && forall b :: Leads(c, b) ==> b == a
  }

  /** There is exactly one leader iff at most one respond-only server is below all dialing ones. */
  lemma OneLeaderIff(c: Members)
    requires c != map[]
    ensures OneLeader(c) <==> forall r, q :: LowResponder(c, r) && LowResponder(c, q) ==> r == q
  {
    assert c.Keys != {};
    var least := SomeLowest(c.Keys);
    forall a | a in c
      ensures Leads(c, a) <==> LowResponder(c, a) || (a == least && !c[a])
    {
      LeadsIff(c, a);
      if Leads(c, a) && !c[a] {
        assert least == a;
      }
    }
    assert Leads(c, least) by { LeadsIff(c, least); }
    if forall r, q :: LowResponder(c, r) && LowResponder(c, q) ==> r == q {
      forall b | Leads(c, b)
        ensures b == least
      {
        if b != least {
          RivalsRespondOnly(c, b, least);
        }
      }
    }
  }

  ghost predicate AtMostOneResponder(c: Members)
  {
    forall r, q :: r in c && q in c && c[r] && c[q] ==> r == q
  }

  ghost predicate AllAgreeOn(c: Members, l: Id)
  {
    forall a :: a in c ==> Believes(c, a, l)
  }

  /** All servers name the same leader iff the least of them dials or is the only
      respond-only one; the leader they name is then the least. */
  lemma AgreementIff(c: Members, least: Id)
    requires IsLowest(least, c.Keys)
    ensures AllAgreeOn(c, least) <==> !c[least] || AtMostOneResponder(c)
    ensures forall l :: AllAgreeOn(c, l) ==> l == least
  {
    forall a | a in c && a != least
      ensures least in Linked(c, a) <==> !(c[a] && c[least])
    {
      ExactlyOneDialer(c, a, least);
    }
    if AllAgreeOn(c, least) && c[least] {
      forall r | r in c && c[r]
        ensures r == least
      {
        assert Believes(c, r, least);
      }
    }
    forall l | AllAgreeOn(c, l)
      ensures l == least
    {
      assert Believes(c, least, l);
      assert l in c;
      assert Believes(c, least, least);
    }
  }

  /** Every server of the cluster has run, is quiescent, and is connected to exactly
      those it should be. */
  ghost predicate Settled(c: Members, traces: map<Id, seq<Server>>)
  {
    && traces.Keys == c.Keys
    && forall a :: a in c ==>
         && IsServerRun(a, traces[a])
         && Quiescent(Final(traces[a]).core)
         && Final(traces[a]).core.members == Linked(c, a)
  }

  function Final(trace: seq<Server>): Server
    requires trace != []
  {
    trace[|trace| - 1]
  }

  /** The end of all runs: the server that every election on its own arrives at is one
      and the same, and it is the least PeerID, iff the least dials or is the only
      respond-only server.  The servers that believe they lead, and those whose timers
      were told to start, are in any case the leaders of the dial rule. */
  lemma SettledElection(c: Members, traces: map<Id, seq<Server>>, least: Id)
    requires Settled(c, traces) && IsLowest(least, c.Keys)
    ensures (forall a :: a in c ==> Final(traces[a]).currentLeader == least)
            <==> !c[least] || AtMostOneResponder(c)
    ensures forall a :: a in c ==> (Final(traces[a]).currentLeader == a <==> Leads(c, a))
    ensures forall a :: a in c && a != 0 ==> (Told(Final(traces[a])).StartLeader? <==> Leads(c, a))
    ensures !c[least] || AtMostOneResponder(c) ==>
      forall a :: a in c && a != 0 ==> (Told(Final(traces[a])).StartLeader? <==> a == least)
  {
    forall a | a in c
      ensures Believes(c, a, Final(traces[a]).currentLeader)
      ensures a != 0 ==> (Told(Final(traces[a])).StartLeader? <==> Final(traces[a]).currentLeader == a)
    {
      QuiescentLeader(a, traces[a], |traces[a]| - 1);
      TimerFollowsLeader(a, traces[a], |traces[a]| - 1);
    }
    AgreementIff(c, least);
  }
}
