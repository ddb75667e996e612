/**
 Chains of steps of any machine, and what holds all along them.
 */
module Chains {
  ghost predicate Linked<S, A>(ss: seq<S>, acts: seq<A>, step: (S, A, S) -> bool, i: nat) {
    i < |acts| && i + 1 < |ss| && step(ss[i], acts[i], ss[i + 1])
  }

  ghost predicate Chain<S, A>(ss: seq<S>, acts: seq<A>, step: (S, A, S) -> bool) {
    |ss| == |acts| + 1 && forall i {:trigger Linked(ss, acts, step, i)} :: 0 <= i < |acts| ==> Linked(ss, acts, step, i)
  }

  lemma ChainPrepend<S, A>(s: S, a: A, ss: seq<S>, acts: seq<A>, step: (S, A, S) -> bool)
    requires Chain(ss, acts, step) && step(s, a, ss[0])
    ensures Chain([s] + ss, [a] + acts, step)
  {
    forall i | 0 <= i < |[a] + acts| ensures Linked([s] + ss, [a] + acts, step, i) {
      if i > 0 {
        assert Linked(ss, acts, step, i - 1);
      }
    }
  }

  lemma ChainConcat<S, A>(ss: seq<S>, acts: seq<A>, tt: seq<S>, more: seq<A>, step: (S, A, S) -> bool)
    requires Chain(ss, acts, step) && Chain(tt, more, step) && tt[0] == ss[|acts|]
    ensures Chain(ss[..|acts|] + tt, acts + more, step)
  {
    var all, both := ss[..|acts|] + tt, acts + more;
    forall i | 0 <= i < |both| ensures Linked(all, both, step, i) {
      if i < |acts| {
        assert Linked(ss, acts, step, i);
      } else {
        assert Linked(tt, more, step, i - |acts|);
      }
    }
  }

  lemma ChainPrefix<S, A>(ss: seq<S>, acts: seq<A>, step: (S, A, S) -> bool, i: nat)
    requires Chain(ss, acts, step) && i <= |acts|
    ensures Chain(ss[..i + 1], acts[..i], step)
  {
    var front, before := ss[..i + 1], acts[..i];
    forall j | 0 <= j < |before| ensures Linked(front, before, step, j) {
      assert Linked(ss, acts, step, j);
    }
  }

  /** What every step from `i` on keeps holds up to `j`. */
  lemma {:induction false} ChainKeeps<S, A>(ss: seq<S>, acts: seq<A>, step: (S, A, S) -> bool, inv: S -> bool, i: nat, j: nat)
    requires Chain(ss, acts, step) && i <= j < |ss| && inv(ss[i])
    requires forall m :: i <= m < j && inv(ss[m]) && step(ss[m], acts[m], ss[m + 1]) ==> inv(ss[m + 1])
    ensures inv(ss[j])
  {
    if i < j {
      ChainKeeps(ss, acts, step, inv, i, j - 1);
      assert Linked(ss, acts, step, j - 1);
    }
  }

  /** A chain of at least one step that comes back to where `m` more such chains are possible. */
  ghost predicate LapFrom<S, A>(ss: seq<S>, acts: seq<A>, step: (S, A, S) -> bool, ready: (S, nat) -> bool, s: S, m: nat) {
    Chain(ss, acts, step) && ss[0] == s && acts != [] && ready(ss[|acts|], m)
  }

  ghost predicate CanLap<S(!new), A(!new)>(step: (S, A, S) -> bool, ready: (S, nat) -> bool, s: S, m: nat) {
    ready(s, m + 1) ==> exists ss, acts :: LapFrom(ss, acts, step, ready, s, m)
  }

  lemma {:induction false} Laps<S(!new), A(!new)>(step: (S, A, S) -> bool, ready: (S, nat) -> bool, s: S, n: nat)
    returns (ss: seq<S>, acts: seq<A>)
    requires ready(s, n)
    requires forall x, m: nat {:trigger CanLap(step, ready, x, m)} :: CanLap(step, ready, x, m)
    ensures Chain(ss, acts, step) && ss[0] == s && |acts| >= n
    decreases n
  {
    ss, acts := [s], [];
    if n > 0 {
      assert CanLap(step, ready, s, n - 1);
      var first, some: seq<A> :| LapFrom(first, some, step, ready, s, n - 1);
      var rest, more := Laps(step, ready, first[|some|], n - 1);
      ChainConcat(first, some, rest, more, step);
      ss, acts := first[..|some|] + rest, some + more;
    }
  }

  /******* From one state to another *******/

  ghost predicate Connects<S, A>(ss: seq<S>, acts: seq<A>, step: (S, A, S) -> bool, a: S, b: S) {
    Chain(ss, acts, step) && ss[0] == a && ss[|acts|] == b
  }

  /** Some chain of steps leads from `a` to `b`. */
  ghost predicate Reaches<S(!new), A(!new)>(step: (S, A, S) -> bool, a: S, b: S) {
    exists ss, acts :: Connects(ss, acts, step, a, b)
  }

  lemma ReachesRefl<S(!new), A(!new)>(step: (S, A, S) -> bool, a: S)
    ensures Reaches(step, a, a)
  {
    var acts: seq<A> := [];
    assert Connects([a], acts, step, a, a);
  }

  lemma ReachesOn<S(!new), A(!new)>(step: (S, A, S) -> bool, a: S, b: S, act: A, c: S)
    requires Reaches(step, a, b) && step(b, act, c)
    ensures Reaches(step, a, c)
  {
    var ss, acts :| Connects(ss, acts, step, a, b);
    forall i | 0 <= i < |acts + [act]| ensures Linked(ss + [c], acts + [act], step, i) {
      if i < |acts| {
        assert Linked(ss, acts, step, i);
      }
    }
    assert Connects(ss + [c], acts + [act], step, a, c);
  }

  lemma ReachesTrans<S(!new), A(!new)>(step: (S, A, S) -> bool, a: S, b: S, c: S)
    requires Reaches(step, a, b) && Reaches(step, b, c)
    ensures Reaches(step, a, c)
  {
    var ss, acts :| Connects(ss, acts, step, b, c);
    ReachesAlong(step, a, ss, acts, |acts|);
  }

  lemma {:induction false} ReachesAlong<S(!new), A(!new)>(step: (S, A, S) -> bool, a: S, ss: seq<S>, acts: seq<A>, i: nat)
    requires Chain(ss, acts, step) && i <= |acts| && Reaches(step, a, ss[0])
    ensures Reaches(step, a, ss[i])
  {
    if i > 0 {
      ReachesAlong(step, a, ss, acts, i - 1);
      assert Linked(ss, acts, step, i - 1);
      ReachesOn(step, a, ss[i - 1], acts[i - 1], ss[i]);
    }
  }

  lemma ReachesKeeps<S(!new), A(!new)>(step: (S, A, S) -> bool, inv: S -> bool, a: S, b: S)
    requires Reaches(step, a, b) && inv(a)
    requires forall x, act, y :: inv(x) && step(x, act, y) ==> inv(y)
    ensures inv(b)
  {
    var ss, acts :| Connects(ss, acts, step, a, b);
    ChainKeeps(ss, acts, step, inv, 0, |acts|);
  }

  /** A chain of narrower steps is a chain of wider ones. */
  lemma ReachesWiden<S(!new), A(!new)>(step: (S, A, S) -> bool, wide: (S, A, S) -> bool, a: S, b: S)
    requires Reaches(step, a, b)
    requires forall x, act, y :: step(x, act, y) ==> wide(x, act, y)
    ensures Reaches(wide, a, b)
  {
    var ss, acts :| Connects(ss, acts, step, a, b);
    forall i | 0 <= i < |acts| ensures Linked(ss, acts, wide, i) {
      assert Linked(ss, acts, step, i);
    }
    assert Connects(ss, acts, wide, a, b);
  }
}
