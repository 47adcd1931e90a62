/**
 Runs of a concurrent system.  A system is given by the states it may start in and
 by the relation of its atomic steps; a run is any finite sequence of states that
 starts in the former and follows the latter.  Every goroutine interleaving is a run.
 */
module Runs {

  ghost predicate IsRun<S(!new)>(init: S -> bool, next: (S, S) -> bool, trace: seq<S>)
  {
    && |trace| > 0
    && init(trace[0])
    && forall i :: 0 < i < |trace| ==> next(trace[i - 1], trace[i])
  }

  /** What holds at the start and is kept by every step holds in every state of every run. */
  lemma {:induction false} InvariantHolds<S(!new)>(
      init: S -> bool, next: (S, S) -> bool, inv: S -> bool, trace: seq<S>, k: nat)
    requires IsRun(init, next, trace) && k < |trace|
    requires forall s :: init(s) ==> inv(s)
    requires forall s, s' :: inv(s) && next(s, s') ==> inv(s')
    ensures inv(trace[k])
  {
    if k > 0 {
      InvariantHolds(init, next, inv, trace, k - 1);
      assert next(trace[k - 1], trace[k]);
    }
  }

  /** What every step keeps, once true, stays true for the rest of the run. */
  lemma {:induction false} StaysTrue<S(!new)>(
      init: S -> bool, next: (S, S) -> bool, inv: S -> bool, p: S -> bool, trace: seq<S>, j: nat, k: nat)
    requires IsRun(init, next, trace) && j <= k < |trace|
    requires forall s :: init(s) ==> inv(s)
    requires forall s, s' :: inv(s) && next(s, s') ==> inv(s')
    requires forall s, s' :: inv(s) && p(s) && next(s, s') ==> p(s')
    requires p(trace[j])
    ensures p(trace[k])
    decreases k - j
  {
    if j < k {
      StaysTrue(init, next, inv, p, trace, j, k - 1);
      InvariantHolds(init, next, inv, trace, k - 1);
      assert next(trace[k - 1], trace[k]);
    }
  }

  /** A run is a shorter run and a step. */
  lemma LastStep<S(!new)>(init: S -> bool, next: (S, S) -> bool, trace: seq<S>)
    requires IsRun(init, next, trace) && |trace| > 1
    ensures IsRun(init, next, trace[..|trace| - 1]) && next(trace[|trace| - 2], trace[|trace| - 1])
  {
    var n := |trace| - 1;
    assert next(trace[n - 1], trace[n]);
    forall i | 0 < i < n
      ensures next(trace[..n][i - 1], trace[..n][i])
    {
      assert next(trace[i - 1], trace[i]);
    }
  }

  /** What is false at first and true later came true at some step. */
  lemma {:induction false} ComesTrue<S(!new)>(p: S -> bool, trace: seq<S>, k: nat) returns (j: nat)
    requires k < |trace| && !p(trace[0]) && p(trace[k])
    ensures j < k && !p(trace[j]) && p(trace[j + 1])
  {
    if p(trace[k - 1]) {
      j := ComesTrue(p, trace, k - 1);
    } else {
      j := k - 1;
    }
  }

  /** A run may be continued by any step its last state allows. */
  lemma Extend<S(!new)>(init: S -> bool, next: (S, S) -> bool, trace: seq<S>, s: S)
    requires IsRun(init, next, trace)
    requires next(trace[|trace| - 1], s)
    ensures IsRun(init, next, trace + [s])
  {
    var longer := trace + [s];
    forall i | 0 < i < |longer|
      ensures next(longer[i - 1], longer[i])
    {
      if i < |trace| {
        assert next(trace[i - 1], trace[i]);
      }
    }
  }

  /** A number that is not in use. */
  lemma {:induction false} AboveAll(ids: set<nat>) returns (n: nat)
    ensures forall i :: i in ids ==> i < n
    decreases |ids|
  {
    n := 0;
    if ids != {} {
      var x :| x in ids;
      var m := AboveAll(ids - {x});
      n := if x < m then m else x + 1;
      assert forall i :: i in ids ==> i == x || i in ids - {x};
    }
  }

  /** Some sequence of steps leads from a to b. */
  ghost predicate Reaches<S(!new)>(next: (S, S) -> bool, a: S, b: S)
  {
    exists trace: seq<S> :: IsRun(s => s == a, next, trace) && trace[|trace| - 1] == b
  }

  lemma ReachesSelf<S(!new)>(next: (S, S) -> bool, a: S)
    ensures Reaches(next, a, a)
  {
    assert IsRun(s => s == a, next, [a]) && [a][|[a]| - 1] == a;
  }

  lemma ReachesStep<S(!new)>(next: (S, S) -> bool, a: S, b: S, c: S)
    requires Reaches(next, a, b) && next(b, c)
    ensures Reaches(next, a, c)
  {
    var init := s => s == a;
    var trace :| IsRun(s => s == a, next, trace) && trace[|trace| - 1] == b;
    assert IsRun(init, next, trace);
    Extend(init, next, trace, c);
    assert (trace + [c])[|trace + [c]| - 1] == c;
    assert IsRun(s => s == a, next, trace + [c]);
  }

  lemma {:induction false} ReachesAlong<S(!new)>(next: (S, S) -> bool, a: S, trace: seq<S>, k: nat)
    requires k < |trace| && Reaches(next, a, trace[0])
    requires forall i :: 0 < i < |trace| ==> next(trace[i - 1], trace[i])
    ensures Reaches(next, a, trace[k])
  {
    if k > 0 {
      ReachesAlong(next, a, trace, k - 1);
      assert next(trace[k - 1], trace[k]);
      ReachesStep(next, a, trace[k - 1], trace[k]);
    }
  }

  /** The states in between. */
  lemma PathOf<S(!new)>(next: (S, S) -> bool, a: S, b: S) returns (trace: seq<S>)
    requires Reaches(next, a, b)
    ensures |trace| > 0 && trace[0] == a && trace[|trace| - 1] == b
    ensures forall i :: 0 < i < |trace| ==> next(trace[i - 1], trace[i])
  {
    trace :| IsRun(s => s == a, next, trace) && trace[|trace| - 1] == b;
  }

  lemma ReachesTrans<S(!new)>(next: (S, S) -> bool, a: S, b: S, c: S)
    requires Reaches(next, a, b) && Reaches(next, b, c)
    ensures Reaches(next, a, c)
  {
    var trace := PathOf(next, b, c);
    ReachesAlong(next, a, trace, |trace| - 1);
  }

  /** What every step keeps holds wherever the steps lead. */
  lemma ReachesKeeps<S(!new)>(next: (S, S) -> bool, inv: S -> bool, a: S, b: S)
    requires Reaches(next, a, b) && inv(a)
    requires forall s, s' :: inv(s) && next(s, s') ==> inv(s')
    ensures inv(b)
  {
    var init := s => s == a;
    var trace :| IsRun(s => s == a, next, trace) && trace[|trace| - 1] == b;
    assert IsRun(init, next, trace);
    InvariantHolds(init, next, inv, trace, |trace| - 1);
  }
}
