/**
 Replaying a log: the states and answers that a sequence of entries leads to.
 */
module Replays {
  import opened Registry

  datatype Replayed = Up(results: seq<Result>, state: State) | Down(results: seq<Result>)

  /** What comes after some earlier answers. */
  function After(results: seq<Result>, rest: Replayed): Replayed {
    rest.(results := results + rest.results)
  }

  lemma AfterNothing(rest: Replayed)
    ensures After([], rest) == rest
  {
    assert [] + rest.results == rest.results;
  }

  lemma AfterBoth(a: seq<Result>, b: seq<Result>, rest: Replayed)
    ensures After(a, After(b, rest)) == After(a + b, rest)
  {
    assert a + (b + rest.results) == (a + b) + rest.results;
  }

  /** Run a log and collect what each proposer is told, up to the first panic. */
  function ReplayWith(step: (State, Entry) -> Step, s: State, log: seq<Entry>): Replayed
    decreases |log|
  {
    if log == [] then Up([], s)
    else
      match step(s, log[0])
      case Crash => Down([])
      case Next(t, result) => After([result], ReplayWith(step, t, log[1..]))
  }

  function Replay(s: State, log: seq<Entry>): Replayed {
    ReplayWith(Apply, s, log)
  }

  lemma {:induction false} ReplaySplit(step: (State, Entry) -> Step, s: State, a: seq<Entry>, b: seq<Entry>)
    requires ReplayWith(step, s, a).Up?
    ensures var first := ReplayWith(step, s, a);
            ReplayWith(step, s, a + b) == After(first.results, ReplayWith(step, first.state, b))
    decreases |a|
  {
    if a == [] {
      assert a + b == b;
      AfterNothing(ReplayWith(step, s, b));
    } else {
      assert (a + b)[0] == a[0] && (a + b)[1..] == a[1..] + b;
      var Next(t, result) := step(s, a[0]);
      ReplaySplit(step, t, a[1..], b);
      var first := ReplayWith(step, t, a[1..]);
      AfterBoth([result], first.results, ReplayWith(step, first.state, b));
    }
  }

  lemma ReplayOne(s: State, e: Entry)
    requires Apply(s, e).Next?
    ensures Replay(s, [e]).results == [Apply(s, e).result]
  {
    assert [e][1..] == [];
    assert ReplayWith(Apply, s, [e]).results == [Apply(s, e).result] + [];
  }

  lemma ReplayNext(s: State, log: seq<Entry>)
    requires log != []
    ensures Replay(s, log).Up? ==>
              && Apply(s, log[0]).Next? && Replay(Apply(s, log[0]).state, log[1..]).Up?
              && Replay(s, log).state == Replay(Apply(s, log[0]).state, log[1..]).state
  {
  }

  /** Replaying in two parts. */
  lemma ReplayOn(s: State, a: seq<Entry>, b: seq<Entry>)
    requires Replay(s, a).Up?
    ensures Replay(s, a + b).Up? <==> Replay(Replay(s, a).state, b).Up?
    ensures Replay(s, a + b).Up? ==> Replay(s, a + b).state == Replay(Replay(s, a).state, b).state
  {
    ReplaySplit(Apply, s, a, b);
  }
}
