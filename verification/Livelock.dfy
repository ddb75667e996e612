/**
 Whether the manager's passes over a shard come to an end, in general. A pass that puts replicas only on
 hosts without the vary key gains nothing: they fit nowhere, are deleted again, and the same pass is
 possible as before. Runs of passes can go on for ever exactly if some run gets to such a pass.
 */
module Livelock {
  import opened Chains
  import opened Iteration
  import opened Numerals
  import opened Registry
  import opened RegistryRuns
  import opened TagText
  import opened Placement
  import opened Convergence

  /** A replica of the shard that the policy has a place for. */
  ghost predicate Fitting(s: State, k: nat, p: Policy, r: nat) {
    HasReplica(s, k, r) && Belongs(p, TagsOn(s, s.replicas[r].hostId))
  }

  /** The same replicas fit, on the same hosts; misfits may come and go. */
  ghost predicate SameFits(s: State, t: State, k: nat, p: Policy) {
    && SameTags(s, t)
    && (forall r :: Fitting(s, k, p, r) <==> Fitting(t, k, p, r))
    && (forall r :: Fitting(s, k, p, r) ==> t.replicas[r].hostId == s.replicas[r].hostId)
  }

  /** Some group is short and could get a host, but every host it could get lacks the vary key. */
  ghost predicate Hopeless(s: State, k: nat, p: Policy) {
    && p.vary.Some?
    && (exists g :: g in p.desired && Missing(s, k, p, g) > 0 && Eligible(s, k, p, g) != {})
    && (forall g, h :: g in p.desired && Missing(s, k, p, g) > 0 && h in Eligible(s, k, p, g) ==>
          p.vary.value !in TagsOn(s, h))
  }

  lemma HopelessNeverSettled(s: State, k: nat, p: Policy)
    requires Hopeless(s, k, p)
    ensures !Settled(s, k, p) && !Carried(s, p)
  {
    var g :| g in p.desired && Missing(s, k, p, g) > 0 && Eligible(s, k, p, g) != {};
    var h :| h in Eligible(s, k, p, g);
    assert h in s.hosts && MatchFilter(TagsOn(s, h), FilterOf(p, g));
  }

  /******* Placement does not see misfits *******/

  lemma FitsFound(s: State, t: State, k: nat, p: Policy, g: string)
    requires SameFits(s, t, k, p)
    ensures Found(t, k, p, g) == Found(s, k, p, g)
  {
    forall r ensures r in Found(t, k, p, g) <==> r in Found(s, k, p, g) {
      FoundFits(s, k, p, g, r);
      FoundFits(t, k, p, g, r);
    }
  }

  lemma FoundFits(s: State, k: nat, p: Policy, g: string, r: nat)
    ensures r in Found(s, k, p, g) <==> Fitting(s, k, p, r) && InGroup(p, TagsOn(s, s.replicas[r].hostId), g)
  {
    if r in Found(s, k, p, g) {
      assert InGroup(p, TagsOn(s, s.replicas[r].hostId), g);
    }
  }

  lemma FitsOccupied(s: State, t: State, k: nat, p: Policy)
    requires SameFits(s, t, k, p)
    ensures Occupied(s, k, p) <= Occupied(t, k, p)
  {
    forall h | h in Occupied(s, k, p) ensures h in Occupied(t, k, p) {
      var r :| r in s.replicas && s.replicas[r].shardId == k && s.replicas[r].hostId == h && Belongs(p, TagsOn(s, h));
      assert Fitting(s, k, p, r);
      assert Fitting(t, k, p, r);
    }
  }

  lemma SameFitsBack(s: State, t: State, k: nat, p: Policy)
    requires SameFits(s, t, k, p)
    ensures SameFits(t, s, k, p)
  {
  }

  lemma FitsEligible(s: State, t: State, k: nat, p: Policy, g: string)
    requires SameFits(s, t, k, p)
    ensures Eligible(t, k, p, g) == Eligible(s, k, p, g) && Missing(t, k, p, g) == Missing(s, k, p, g)
    ensures Candidates(t, k, p, g) == Candidates(s, k, p, g)
  {
    SameFitsBack(s, t, k, p);
    FitsOccupied(s, t, k, p);
    FitsOccupied(t, s, k, p);
    FitsFound(s, t, k, p, g);
    forall r | r in Found(s, k, p, g) ensures t.replicas[r].hostId == s.replicas[r].hostId {
      FoundFits(s, k, p, g, r);
    }
    assert VaryTags(t, k, p, g) == VaryTags(s, k, p, g);
    assert Candidates(t, k, p, g) == Candidates(s, k, p, g);
    assert Blocked(t, k, p, g) == Blocked(s, k, p, g);
  }

  lemma HopelessStays(s: State, t: State, k: nat, p: Policy)
    requires SameFits(s, t, k, p) && Hopeless(s, k, p)
    ensures Hopeless(t, k, p)
  {
    forall g ensures Eligible(t, k, p, g) == Eligible(s, k, p, g) && Missing(t, k, p, g) == Missing(s, k, p, g) {
      FitsEligible(s, t, k, p, g);
    }
    var g :| g in p.desired && Missing(s, k, p, g) > 0 && Eligible(s, k, p, g) != {};
    assert Missing(t, k, p, g) > 0 && Eligible(t, k, p, g) != {};
  }

  /** A replica that fits nowhere changes nothing that placement sees. */
  lemma MisfitUnseen(s: State, t: State, k: nat, r: nat, host: string, p: Policy)
    requires Adds(s, t, k, r, host) && t.hosts.Keys == s.hosts.Keys && !Belongs(p, TagsOn(s, host))
    ensures SameFits(s, t, k, p) && SameFits(t, s, k, p)
  {
  }

  lemma SameFitsTrans(s: State, t: State, u: State, k: nat, p: Policy)
    requires SameFits(s, t, k, p) && SameFits(t, u, k, p)
    ensures SameFits(s, u, k, p)
  {
    forall r ensures Fitting(s, k, p, r) <==> Fitting(u, k, p, r) {
      assert Fitting(s, k, p, r) <==> Fitting(t, k, p, r);
    }
  }

  /******* Passes *******/

  /** The registry after all operations are committed. */
  function CommitAll(s: State, ops: seq<Op>): Step
    decreases |ops|
  {
    if ops == [] then Next(s, NONE)
    else match Proposed(s, ops[0])
      case Crash => Crash
      case Next(t, _) => CommitAll(t, ops[1..])
  }

  /** Such a pass, committed. */
  ghost predicate PassTo(s: State, ops: seq<Op>, t: State, k: nat, p: Policy) {
    && Passes(s, k, p, ops) && CommitAll(s, ops).Next? && CommitAll(s, ops).state == t
    && t.index < U64_LIMIT
  }

  ghost function PassStep(k: nat, p: Policy): (State, seq<Op>, State) -> bool {
    (s, ops, t) => PassTo(s, ops, t, k, p)
  }

  /** A run of passes over one shard, each committed before the next one. */
  ghost predicate PassRun(ss: seq<State>, opss: seq<seq<Op>>, k: nat, p: Policy) {
    Chain(ss, opss, PassStep(k, p))
  }

  lemma DeleteUnseen(s: State, k: nat, p: Policy, r: nat)
    requires Inv(s) && s.index + 1 < U64_LIMIT && r in Undesired(s, k, p)
    ensures var step := Proposed(s, Delete(r));
            step.Next? && Inv(step.state) && step.state.index == s.index + 1 && SameFits(s, step.state, k, p)
  {
    CommitDelete(s, r);
    var t := Proposed(s, Delete(r)).state;
    MisfitUnseen(t, s, k, r, s.replicas[r].hostId, p);
  }

  lemma CreateUnseen(s: State, k: nat, p: Policy, op: Op)
    requires Inv(s) && s.index + 1 < U64_LIMIT && op.Create? && op.shard == k && op.host in s.hosts
    requires !Belongs(p, TagsOn(s, op.host))
    ensures var step := Proposed(s, op);
            step.Next? && Inv(step.state) && step.state.index == s.index + 1 && SameFits(s, step.state, k, p)
  {
    CommitCreate(s, op.host, k, op.isNonVoting);
    MisfitUnseen(s, Proposed(s, op).state, k, s.replicaCounter + 1, op.host, p);
  }

  /** Creates on stored hosts that fit nowhere. */
  ghost predicate Vain(s: State, k: nat, p: Policy, ops: seq<Op>) {
    forall i :: 0 <= i < |ops| ==>
      ops[i].Create? && ops[i].shard == k && ops[i].host in s.hosts && !Belongs(p, TagsOn(s, ops[i].host))
  }

  lemma {:induction false} VainUnseen(s: State, k: nat, p: Policy, ops: seq<Op>)
    requires Inv(s) && Vain(s, k, p, ops) && s.index + |ops| < U64_LIMIT
    ensures var step := CommitAll(s, ops);
            step.Next? && Inv(step.state) && step.state.index == s.index + |ops| && SameFits(s, step.state, k, p)
    decreases |ops|
  {
    if ops != [] {
      CreateUnseen(s, k, p, ops[0]);
      var t := Proposed(s, ops[0]).state;
      VainUnseen(t, k, p, ops[1..]);
      SameFitsTrans(s, t, CommitAll(t, ops[1..]).state, k, p);
    }
  }

  /** In a hopeless state a pass that places anything places in vain, and it does place. */
  lemma PlacedInVain(s: State, k: nat, p: Policy, placed: seq<Placed>)
    requires Hopeless(s, k, p) && Sound(s, k, p, placed) && Maximal(s, k, p, placed)
    ensures placed != [] && Vain(s, k, p, Creates(k, placed))
  {
    var g :| g in p.desired && Missing(s, k, p, g) > 0 && Eligible(s, k, p, g) != {};
    var h :| h in Eligible(s, k, p, g);
    assert CountOf(placed, g) == Missing(s, k, p, g) || h in PlacedHosts(placed);
    forall i | 0 <= i < |placed| ensures placed[i].host in s.hosts && !Belongs(p, TagsOn(s, placed[i].host)) {
      PlacedGraded(s, k, p, placed, i);
      CountAt(placed, i);
      assert placed[i].host in Eligible(s, k, p, placed[i].group);
    }
  }

  lemma {:induction false} CommitAllIndex(s: State, ops: seq<Op>)
    ensures CommitAll(s, ops).Next? ==> CommitAll(s, ops).state.index == s.index + |ops|
    decreases |ops|
  {
    if ops != [] && Proposed(s, ops[0]).Next? {
      CommitAllIndex(Proposed(s, ops[0]).state, ops[1..]);
    }
  }

  lemma DeletesInVain(s: State, k: nat, p: Policy, ops: seq<Op>)
    requires Inv(s) && Passes(s, k, p, ops) && Undesired(s, k, p) != {}
    requires CommitAll(s, ops).Next? && CommitAll(s, ops).state.index < U64_LIMIT
    ensures var t := CommitAll(s, ops).state; ops != [] && Inv(t) && SameFits(s, t, k, p)
  {
    CommitAllIndex(s, ops);
    var r :| r in Undesired(s, k, p) && ops == [Delete(r)];
    DeleteUnseen(s, k, p, r);
    assert ops[1..] == [];
  }

  lemma CreatesInVain(s: State, k: nat, p: Policy, ops: seq<Op>)
    requires Inv(s) && Hopeless(s, k, p) && Passes(s, k, p, ops) && Undesired(s, k, p) == {}
    requires CommitAll(s, ops).Next? && CommitAll(s, ops).state.index < U64_LIMIT
    ensures var t := CommitAll(s, ops).state; ops != [] && Inv(t) && SameFits(s, t, k, p)
  {
    CommitAllIndex(s, ops);
    var placed: seq<Placed> :| ops == Creates(k, placed) && Sound(s, k, p, placed) && Maximal(s, k, p, placed);
    PlacedInVain(s, k, p, placed);
    VainUnseen(s, k, p, ops);
  }

  /** A pass over a hopeless shard proposes something and leaves it as hopeless. */
  lemma PassInVain(s: State, ops: seq<Op>, t: State, k: nat, p: Policy)
    requires Inv(s) && Hopeless(s, k, p) && PassTo(s, ops, t, k, p)
    ensures ops != [] && Inv(t) && SameFits(s, t, k, p) && Hopeless(t, k, p)
  {
    if Undesired(s, k, p) != {} {
      DeletesInVain(s, k, p, ops);
    } else {
      CreatesInVain(s, k, p, ops);
    }
    HopelessStays(s, t, k, p);
  }

  ghost predicate Doomed(s: State, k: nat, p: Policy) {
    Inv(s) && Hopeless(s, k, p)
  }

  lemma DoomedPass(s: State, ops: seq<Op>, t: State, k: nat, p: Policy)
    requires Doomed(s, k, p) && PassTo(s, ops, t, k, p)
    ensures ops != [] && Doomed(t, k, p)
  {
    PassInVain(s, ops, t, k, p);
  }

  ghost function DoomedFor(k: nat, p: Policy): State -> bool {
    s => Doomed(s, k, p)
  }

  lemma StaysDoomed(ss: seq<State>, opss: seq<seq<Op>>, k: nat, p: Policy, i: nat)
    requires PassRun(ss, opss, k, p) && i < |ss| && Doomed(ss[0], k, p)
    ensures Doomed(ss[i], k, p)
  {
    var step, inv := PassStep(k, p), DoomedFor(k, p);
    forall j | 0 <= j < |opss| && inv(ss[j]) && step(ss[j], opss[j], ss[j + 1]) ensures inv(ss[j + 1]) {
      DoomedPass(ss[j], opss[j], ss[j + 1], k, p);
    }
    ChainKeeps(ss, opss, step, inv, 0, i);
  }

  lemma PassOf(ss: seq<State>, opss: seq<seq<Op>>, k: nat, p: Policy, i: nat)
    requires PassRun(ss, opss, k, p) && i < |opss|
    ensures PassTo(ss[i], opss[i], ss[i + 1], k, p)
  {
    assert Linked(ss, opss, PassStep(k, p), i);
  }

  /** However long it goes on, and whatever hosts the passes choose: from a hopeless state every pass
      proposes something, so the manager's loop goes round again, and the shard is never settled. */
  lemma NeverEnds(ss: seq<State>, opss: seq<seq<Op>>, k: nat, p: Policy, i: nat)
    requires PassRun(ss, opss, k, p) && Inv(ss[0]) && Hopeless(ss[0], k, p) && i < |ss|
    ensures Hopeless(ss[i], k, p) && !Settled(ss[i], k, p)
    ensures i < |opss| ==> opss[i] != []
  {
    StaysDoomed(ss, opss, k, p, i);
    HopelessNeverSettled(ss[i], k, p);
    if i < |opss| {
      PassOf(ss, opss, k, p, i);
      DoomedPass(ss[i], opss[i], ss[i + 1], k, p);
    }
  }

  /******* Rounds *******/

  /** Which passes a controller can make, out of all that the policy allows: how it picks hosts. */
  type Rule = (State, seq<Op>) -> bool

  /** It always deletes the least misfit, and otherwise looks at the fitting replicas only. */
  ghost predicate Steadfast(rule: Rule, k: nat, p: Policy) {
    && (forall s: State, ops: seq<Op> :: Undesired(s, k, p) != {} && Passes(s, k, p, ops) ==> rule(s, ops))
    && (forall s: State, t: State, ops: seq<Op> {:trigger rule(s, ops), SameFits(s, t, k, p)} ::
          rule(s, ops) && SameFits(s, t, k, p) && Undesired(s, k, p) == {} && Undesired(t, k, p) == {} ==> rule(t, ops))
  }

  /** A pass of the controller that proposes something, so that the manager goes round again. */
  ghost function Rounds(rule: Rule, k: nat, p: Policy): (State, seq<Op>, State) -> bool {
    (s, ops, t) => Round(rule, s, ops, t, k, p)
  }

  ghost predicate Round(rule: Rule, s: State, ops: seq<Op>, t: State, k: nat, p: Policy) {
    rule(s, ops) && ops != [] && PassTo(s, ops, t, k, p)
  }

  /** Creates only, and none on a host with the vary key. */
  ghost predicate Keyless(s: State, p: Policy, ops: seq<Op>) {
    p.vary.Some? && forall i :: 0 <= i < |ops| ==> ops[i].Create? && p.vary.value !in TagsOn(s, ops[i].host)
  }

  /** The controller can make a pass that proposes something and gains nothing. */
  ghost predicate StuckBy(rule: Rule, s: State, ops: seq<Op>, k: nat, p: Policy) {
    Undesired(s, k, p) == {} && ops != [] && rule(s, ops) && Passes(s, k, p, ops) && Keyless(s, p, ops)
  }

  ghost predicate Stuck(rule: Rule, s: State, k: nat, p: Policy) {
    exists ops: seq<Op> :: StuckBy(rule, s, ops, k, p)
  }

  /******* What a round achieves *******/

  /** How many replicas the groups are short of. */
  ghost function Short(s: State, k: nat, p: Policy): nat {
    Sum(p.desired.Keys, MissingIn(s, k, p))
  }

  /** 2 + 4 + ... + 2m: each replica more may at worst cost a pass of misfits and their removal. */
  ghost function Toll(m: nat): nat {
    if m == 0 then 0 else Toll(m - 1) + 2 * m
  }

  lemma {:induction false} TollGrows(m: nat, m': nat)
    requires m < m'
    ensures Toll(m) + 2 * m' <= Toll(m')
  {
    if m < m' - 1 {
      TollGrows(m, m' - 1);
    }
  }

  /** How many log positions are left, at most, before the rounds end or the controller is stuck. */
  ghost function Effort(s: State, k: nat, p: Policy): nat {
    |Undesired(s, k, p)| + Toll(Short(s, k, p))
  }

  /** A replica on the host would fill a gap. */
  ghost predicate Fills(s: State, k: nat, p: Policy, h: string) {
    exists g :: g in p.desired && InGroup(p, TagsOn(s, h), g) && Missing(s, k, p, g) > 0
  }

  lemma ShortAdds(s: State, t: State, k: nat, r: nat, host: string, p: Policy)
    requires Adds(s, t, k, r, host)
    ensures Short(t, k, p) <= Short(s, k, p) && |Undesired(t, k, p)| <= |Undesired(s, k, p)| + 1
    ensures Fills(s, k, p, host) ==> Short(t, k, p) < Short(s, k, p)
  {
    UndesiredAdds(s, t, k, p, r, host);
    var f, f' := MissingIn(s, k, p), MissingIn(t, k, p);
    forall g ensures f'(g) == if InGroup(p, TagsOn(s, host), g) && f(g) > 0 then f(g) - 1 else f(g) {
      MissingAdds(s, t, k, p, r, host, g);
    }
    SumLess(p.desired.Keys, f, f');
  }

  ghost predicate Creating(s: State, k: nat, ops: seq<Op>) {
    forall i :: 0 <= i < |ops| ==> ops[i].Create? && ops[i].shard == k && ops[i].host in s.hosts
  }

  /** What a number of creates makes of the shard. */
  ghost predicate Grown(s: State, t: State, k: nat, p: Policy, n: nat) {
    && Inv(t) && t.index == s.index + n && SameTags(s, t)
    && Short(t, k, p) <= Short(s, k, p) && |Undesired(t, k, p)| <= |Undesired(s, k, p)| + n
  }

  lemma CreateGrows(s: State, k: nat, p: Policy, op: Op)
    requires Inv(s) && s.index + 1 < U64_LIMIT && op.Create? && op.shard == k && op.host in s.hosts
    ensures var step := Proposed(s, op); step.Next? && Grown(s, step.state, k, p, 1)
    ensures Fills(s, k, p, op.host) ==> Short(Proposed(s, op).state, k, p) < Short(s, k, p)
  {
    CommitCreate(s, op.host, k, op.isNonVoting);
    KeepsTags(s, Proposed(s, op).state);
    ShortAdds(s, Proposed(s, op).state, k, s.replicaCounter + 1, op.host, p);
  }

  lemma {:induction false} CreatesGrow(s: State, k: nat, p: Policy, ops: seq<Op>)
    requires Inv(s) && Creating(s, k, ops) && s.index + |ops| < U64_LIMIT
    ensures var step := CommitAll(s, ops); step.Next? && Grown(s, step.state, k, p, |ops|)
    decreases |ops|
  {
    if ops != [] {
      CreateGrows(s, k, p, ops[0]);
      CreatesGrow(Proposed(s, ops[0]).state, k, p, ops[1..]);
    }
  }

  ghost predicate LacksKey(s: State, p: Policy, h: string) {
    p.vary.Some? && p.vary.value !in TagsOn(s, h)
  }

  /** A create that fills a gap, or fits nowhere for want of the vary key. */
  ghost predicate Graded(s: State, k: nat, p: Policy, op: Op) {
    && op.Create? && op.shard == k && op.host in s.hosts
    && if LacksKey(s, p, op.host) then !Belongs(p, TagsOn(s, op.host)) else Fills(s, k, p, op.host)
  }

  ghost predicate AllGraded(s: State, k: nat, p: Policy, ops: seq<Op>) {
    forall i {:trigger Graded(s, k, p, ops[i])} :: 0 <= i < |ops| ==> Graded(s, k, p, ops[i])
  }

  lemma FillsUnseen(s: State, t: State, k: nat, p: Policy, h: string)
    requires SameFits(s, t, k, p) && Fills(s, k, p, h)
    ensures Fills(t, k, p, h)
  {
    var g :| g in p.desired && InGroup(p, TagsOn(s, h), g) && Missing(s, k, p, g) > 0;
    FitsEligible(s, t, k, p, g);
    assert InGroup(p, TagsOn(t, h), g);
  }

  lemma GradedUnseen(s: State, t: State, k: nat, p: Policy, ops: seq<Op>)
    requires AllGraded(s, k, p, ops) && SameFits(s, t, k, p)
    ensures AllGraded(t, k, p, ops)
  {
    forall i | 0 <= i < |ops| ensures Graded(t, k, p, ops[i]) {
      assert Graded(s, k, p, ops[i]);
      if !LacksKey(s, p, ops[i].host) {
        FillsUnseen(s, t, k, p, ops[i].host);
      }
    }
  }

  lemma GradedCreates(s: State, k: nat, p: Policy, ops: seq<Op>)
    requires AllGraded(s, k, p, ops)
    ensures Creating(s, k, ops) && (Keyless(s, p, ops) ==> Vain(s, k, p, ops))
  {
    forall i | 0 <= i < |ops|
      ensures ops[i].Create? && ops[i].shard == k && ops[i].host in s.hosts
      ensures LacksKey(s, p, ops[i].host) ==> !Belongs(p, TagsOn(s, ops[i].host))
    {
      assert Graded(s, k, p, ops[i]);
    }
  }

  /** The first create either fills a gap or goes unseen. */
  lemma GradedFirst(s: State, k: nat, p: Policy, ops: seq<Op>)
    requires Inv(s) && AllGraded(s, k, p, ops) && s.index + 1 < U64_LIMIT && ops != []
    ensures var step := Proposed(s, ops[0]);
            && step.Next? && Grown(s, step.state, k, p, 1) && Creating(step.state, k, ops[1..])
            && ops[0].Create?
            && if LacksKey(s, p, ops[0].host)
               then AllGraded(step.state, k, p, ops[1..])
               else Short(step.state, k, p) < Short(s, k, p)
  {
    assert Graded(s, k, p, ops[0]);
    GradedCreates(s, k, p, ops);
    CreateGrows(s, k, p, ops[0]);
    if LacksKey(s, p, ops[0].host) {
      var t := Proposed(s, ops[0]).state;
      CreateUnseen(s, k, p, ops[0]);
      GradedUnseen(s, t, k, p, ops);
      forall i | 0 <= i < |ops[1..]| ensures Graded(t, k, p, ops[1..][i]) {
        assert Graded(t, k, p, ops[i + 1]);
      }
    }
  }

  ghost predicate Shortened(s: State, k: nat, p: Policy, ops: seq<Op>) {
    CommitAll(s, ops).Next? && Short(CommitAll(s, ops).state, k, p) < Short(s, k, p)
  }

  lemma ShortenNow(s: State, k: nat, p: Policy, ops: seq<Op>)
    requires Inv(s) && AllGraded(s, k, p, ops) && s.index + |ops| < U64_LIMIT
    requires ops != [] && ops[0].Create? && !LacksKey(s, p, ops[0].host)
    ensures Shortened(s, k, p, ops)
  {
    GradedFirst(s, k, p, ops);
    CreatesGrow(Proposed(s, ops[0]).state, k, p, ops[1..]);
  }

  /** One create on a host with the vary key, and the groups are short of fewer replicas. */
  lemma {:induction false} GradedShortens(s: State, k: nat, p: Policy, ops: seq<Op>, i: nat)
    requires Inv(s) && AllGraded(s, k, p, ops) && s.index + |ops| < U64_LIMIT
    requires i < |ops| && ops[i].Create? && !LacksKey(s, p, ops[i].host)
    ensures Shortened(s, k, p, ops)
    decreases |ops|
  {
    assert Graded(s, k, p, ops[0]);
    if i == 0 || !LacksKey(s, p, ops[0].host) {
      ShortenNow(s, k, p, ops);
    } else {
      GradedFirst(s, k, p, ops);
      var t, rest := Proposed(s, ops[0]).state, ops[1..];
      assert rest[i - 1] == ops[i];
      GradedShortens(t, k, p, rest, i - 1);
    }
  }

  lemma PlacedGraded(s: State, k: nat, p: Policy, placed: seq<Placed>, i: nat)
    requires Sound(s, k, p, placed) && i < |placed|
    ensures Graded(s, k, p, Create(placed[i].host, k, placed[i].group != MEMBER))
  {
    CountAt(placed, i);
    var g := placed[i].group;
    assert placed[i].host in Candidates(s, k, p, g) && CountOf(placed, g) <= Missing(s, k, p, g);
    if !LacksKey(s, p, placed[i].host) {
      assert InGroup(p, TagsOn(s, placed[i].host), g);
    }
  }

  lemma CreatesShort(s: State, k: nat, p: Policy, placed: seq<Placed>)
    requires Sound(s, k, p, placed)
    ensures |placed| <= Short(s, k, p)
  {
    CountsCover(placed, p.desired.Keys);
    SumLess(p.desired.Keys, MissingIn(s, k, p), CountIn(placed));
  }

  lemma PassGraded(s: State, k: nat, p: Policy, ops: seq<Op>)
    requires Passes(s, k, p, ops) && Undesired(s, k, p) == {}
    ensures AllGraded(s, k, p, ops) && |ops| <= Short(s, k, p)
  {
    var placed: seq<Placed> :| ops == Creates(k, placed) && Sound(s, k, p, placed) && Maximal(s, k, p, placed);
    CreatesShort(s, k, p, placed);
    forall i | 0 <= i < |ops| ensures Graded(s, k, p, ops[i]) {
      PlacedGraded(s, k, p, placed, i);
    }
  }

  /** Where every admitted host carries the vary key, no pass gains nothing. */
  lemma CarriedGains(s: State, k: nat, p: Policy, ops: seq<Op>)
    requires Carried(s, p) && Passes(s, k, p, ops) && Undesired(s, k, p) == {} && ops != []
    ensures !Keyless(s, p, ops)
  {
    var placed: seq<Placed> :| ops == Creates(k, placed) && Sound(s, k, p, placed) && Maximal(s, k, p, placed);
    assert placed[0].host in Candidates(s, k, p, placed[0].group);
    assert ops[0].host == placed[0].host;
  }

  /** Between a state and a later one: how far, and at what cost. */
  ghost predicate Spent(s: State, t: State, k: nat, p: Policy) {
    Inv(t) && Short(t, k, p) <= Short(s, k, p) && Effort(t, k, p) + t.index <= Effort(s, k, p) + s.index
  }

  lemma DeleteClears(s: State, k: nat, p: Policy, r: nat)
    requires Inv(s) && s.index + 1 < U64_LIMIT && r in Undesired(s, k, p)
    ensures var step := Proposed(s, Delete(r));
            && step.Next? && Inv(step.state) && step.state.index == s.index + 1
            && SameFits(s, step.state, k, p) && Undesired(step.state, k, p) == Undesired(s, k, p) - {r}
  {
    DeleteUnseen(s, k, p, r);
    CommitDelete(s, r);
    var t := Proposed(s, Delete(r)).state;
    UndesiredAdds(t, s, k, p, r, s.replicas[r].hostId);
    assert r !in Undesired(t, k, p);
  }

  lemma FitsShort(s: State, t: State, k: nat, p: Policy)
    requires SameFits(s, t, k, p)
    ensures Short(t, k, p) == Short(s, k, p)
  {
    forall g ensures Missing(t, k, p, g) == Missing(s, k, p, g) {
      FitsEligible(s, t, k, p, g);
    }
    MissingSumSame(s, t, k, p);
  }

  lemma ClearedSpends(s: State, t: State, k: nat, p: Policy, r: nat)
    requires Inv(t) && t.index == s.index + 1 && SameFits(s, t, k, p)
    requires r in Undesired(s, k, p) && Undesired(t, k, p) == Undesired(s, k, p) - {r}
    ensures Spent(s, t, k, p)
  {
    FitsShort(s, t, k, p);
    assert |Undesired(s, k, p) - {r}| == |Undesired(s, k, p)| - 1;
  }

  lemma GrownSpends(s: State, t: State, k: nat, p: Policy, n: nat)
    requires Grown(s, t, k, p, n) && Undesired(s, k, p) == {} && n <= Short(s, k, p) && Short(t, k, p) < Short(s, k, p)
    ensures Spent(s, t, k, p)
  {
    TollGrows(Short(t, k, p), Short(s, k, p));
  }

  lemma CreatesSpend(s: State, k: nat, p: Policy, ops: seq<Op>)
    requires Inv(s) && Passes(s, k, p, ops) && Undesired(s, k, p) == {} && ops != [] && !Keyless(s, p, ops)
    requires s.index + |ops| < U64_LIMIT
    ensures var step := CommitAll(s, ops); step.Next? && Spent(s, step.state, k, p)
  {
    PassGraded(s, k, p, ops);
    GradedCreates(s, k, p, ops);
    CreatesGrow(s, k, p, ops);
    var i :| 0 <= i < |ops| && !LacksKey(s, p, ops[i].host);
    GradedShortens(s, k, p, ops, i);
    GrownSpends(s, CommitAll(s, ops).state, k, p, |ops|);
  }

  /** A pass that gains something leaves less to do than it has spent. */
  lemma PassSpends(s: State, ops: seq<Op>, t: State, k: nat, p: Policy)
    requires Inv(s) && PassTo(s, ops, t, k, p) && ops != [] && !(Undesired(s, k, p) == {} && Keyless(s, p, ops))
    ensures Spent(s, t, k, p) && t.index > s.index
  {
    CommitAllIndex(s, ops);
    if Undesired(s, k, p) != {} {
      var r :| r in Undesired(s, k, p) && ops == [Delete(r)];
      DeleteClears(s, k, p, r);
      assert ops[1..] == [];
      ClearedSpends(s, t, k, p, r);
    } else {
      CreatesSpend(s, k, p, ops);
    }
  }

  /******* Rounds without a stuck state *******/

  ghost predicate RoundsFrom(rule: Rule, ss: seq<State>, opss: seq<seq<Op>>, s: State, k: nat, p: Policy) {
    Chain(ss, opss, Rounds(rule, k, p)) && ss[0] == s
  }

  lemma RoundAt(rule: Rule, ss: seq<State>, opss: seq<seq<Op>>, k: nat, p: Policy, i: nat)
    requires Chain(ss, opss, Rounds(rule, k, p)) && i < |opss|
    ensures Round(rule, ss[i], opss[i], ss[i + 1], k, p)
  {
    assert Linked(ss, opss, Rounds(rule, k, p), i);
  }

  lemma FreeRound(rule: Rule, s: State, ops: seq<Op>, t: State, k: nat, p: Policy)
    requires Inv(s) && Round(rule, s, ops, t, k, p) && !Stuck(rule, s, k, p)
    ensures Spent(s, t, k, p) && t.index > s.index
  {
    assert !StuckBy(rule, s, ops, k, p);
    PassSpends(s, ops, t, k, p);
  }

  /** Every round uses up some of the effort that is left. */
  lemma {:induction false} FreeRounds(rule: Rule, ss: seq<State>, opss: seq<seq<Op>>, k: nat, p: Policy, i: nat)
    requires Chain(ss, opss, Rounds(rule, k, p)) && i <= |opss| && Inv(ss[0])
    requires forall m :: 0 <= m < i ==> !Stuck(rule, ss[m], k, p)
    ensures Spent(ss[0], ss[i], k, p) && ss[i].index >= ss[0].index + i
  {
    if i > 0 {
      FreeRounds(rule, ss, opss, k, p, i - 1);
      RoundAt(rule, ss, opss, k, p, i - 1);
      FreeRound(rule, ss[i - 1], opss[i - 1], ss[i], k, p);
    }
  }

  /** Whatever hosts the controller picks: as long as it is never stuck, the rounds end. */
  lemma RoundsEnd(rule: Rule, ss: seq<State>, opss: seq<seq<Op>>, s: State, k: nat, p: Policy)
    requires RoundsFrom(rule, ss, opss, s, k, p) && Inv(s)
    requires forall m :: 0 <= m < |opss| ==> !Stuck(rule, ss[m], k, p)
    ensures |opss| <= Effort(s, k, p) && ss[|opss|].index <= s.index + Effort(s, k, p)
  {
    FreeRounds(rule, ss, opss, k, p, |opss|);
  }

  /******* Rounds after a stuck state *******/

  lemma {:induction false} Least(rs: set<nat>) returns (r: nat)
    requires rs != {}
    ensures r in rs && forall x :: x in rs ==> r <= x
  {
    var first :| first in rs;
    r := first;
    assert forall x :: x in rs ==> x == first || x in rs - {first};
    if rs - {first} != {} {
      var rest := Least(rs - {first});
      r := if rest < first then rest else first;
    }
  }

  /** One misfit less. */
  lemma ClearOne(rule: Rule, s: State, k: nat, p: Policy) returns (ops: seq<Op>, t: State)
    requires Steadfast(rule, k, p) && Inv(s) && Undesired(s, k, p) != {} && s.index + 1 < U64_LIMIT
    ensures Round(rule, s, ops, t, k, p) && Inv(t) && t.index == s.index + 1 && SameFits(s, t, k, p)
    ensures |Undesired(t, k, p)| == |Undesired(s, k, p)| - 1
  {
    var r := Least(Undesired(s, k, p));
    ops, t := [Delete(r)], Proposed(s, Delete(r)).state;
    DeleteClears(s, k, p, r);
    assert ops[1..] == [];
    assert Passes(s, k, p, ops);
    assert |Undesired(s, k, p) - {r}| == |Undesired(s, k, p)| - 1;
  }

  /** All misfits are deleted, one round each. */
  ghost predicate Cleared(s: State, t: State, k: nat, p: Policy, n: nat) {
    Inv(t) && t.index == s.index + n && SameFits(s, t, k, p) && Undesired(t, k, p) == {}
  }

  lemma {:induction false} Clear(rule: Rule, s: State, k: nat, p: Policy) returns (ss: seq<State>, opss: seq<seq<Op>>)
    requires Steadfast(rule, k, p) && Inv(s) && s.index + |Undesired(s, k, p)| < U64_LIMIT
    ensures RoundsFrom(rule, ss, opss, s, k, p) && Cleared(s, ss[|opss|], k, p, |Undesired(s, k, p)|)
    decreases |Undesired(s, k, p)|
  {
    ss, opss := [s], [];
    if Undesired(s, k, p) != {} {
      var ops, t := ClearOne(rule, s, k, p);
      var rest, more := Clear(rule, t, k, p);
      ChainPrepend(s, ops, rest, more, Rounds(rule, k, p));
      SameFitsTrans(s, t, rest[|more|], k, p);
      ss, opss := [s] + rest, [ops] + more;
    }
  }

  /** What one registry allows, another with the same fitting replicas allows as well. */
  lemma FitsPasses(s: State, t: State, k: nat, p: Policy, ops: seq<Op>)
    requires SameFits(s, t, k, p) && Undesired(s, k, p) == {} && Undesired(t, k, p) == {} && Passes(s, k, p, ops)
    ensures Passes(t, k, p, ops)
  {
    var placed: seq<Placed> :| ops == Creates(k, placed) && Sound(s, k, p, placed) && Maximal(s, k, p, placed);
    forall g ensures Eligible(t, k, p, g) == Eligible(s, k, p, g) && Missing(t, k, p, g) == Missing(s, k, p, g)
      ensures Candidates(t, k, p, g) == Candidates(s, k, p, g)
    {
      FitsEligible(s, t, k, p, g);
    }
    assert Sound(t, k, p, placed) && Maximal(t, k, p, placed);
  }

  lemma StuckAgain(rule: Rule, s: State, t: State, ops: seq<Op>, k: nat, p: Policy)
    requires Steadfast(rule, k, p) && StuckBy(rule, s, ops, k, p) && SameFits(s, t, k, p) && Undesired(t, k, p) == {}
    ensures StuckBy(rule, t, ops, k, p)
  {
    FitsPasses(s, t, k, p, ops);
    assert rule(s, ops);
  }

  lemma VainRound(rule: Rule, s: State, ops: seq<Op>, k: nat, p: Policy) returns (t: State)
    requires Inv(s) && StuckBy(rule, s, ops, k, p) && s.index + |ops| < U64_LIMIT
    ensures Round(rule, s, ops, t, k, p) && Inv(t) && t.index == s.index + |ops| && SameFits(s, t, k, p)
    ensures |Undesired(t, k, p)| <= |ops|
  {
    PassGraded(s, k, p, ops);
    GradedCreates(s, k, p, ops);
    VainUnseen(s, k, p, ops);
    CreatesGrow(s, k, p, ops);
    t := CommitAll(s, ops).state;
  }

  /** A pass in vain and the removal of what it created lead back to where the controller was stuck. */
  lemma Lap(rule: Rule, s: State, ops: seq<Op>, k: nat, p: Policy) returns (ss: seq<State>, opss: seq<seq<Op>>)
    requires Steadfast(rule, k, p) && Inv(s) && StuckBy(rule, s, ops, k, p) && s.index + 2 * |ops| < U64_LIMIT
    ensures RoundsFrom(rule, ss, opss, s, k, p) && opss != []
    ensures Inv(ss[|opss|]) && StuckBy(rule, ss[|opss|], ops, k, p) && ss[|opss|].index <= s.index + 2 * |ops|
  {
    var t := VainRound(rule, s, ops, k, p);
    var rest, more := Clear(rule, t, k, p);
    ChainPrepend(s, ops, rest, more, Rounds(rule, k, p));
    SameFitsTrans(s, t, rest[|more|], k, p);
    StuckAgain(rule, s, rest[|more|], ops, k, p);
    ss, opss := [s] + rest, [ops] + more;
  }

  /** Log positions for `n` laps of `c` creates and as many deletes: 2 * c * n. */
  ghost function Positions(c: nat, n: nat): nat {
    if n == 0 then 0 else Positions(c, n - 1) + 2 * c
  }

  lemma {:induction false} PositionsGrow(c: nat, d: nat, n: nat)
    requires c <= d
    ensures Positions(c, n) <= Positions(d, n)
  {
    if n > 0 {
      PositionsGrow(c, d, n - 1);
    }
  }

  /** Stuck, with room for so many laps. */
  ghost function Ready(rule: Rule, ops: seq<Op>, k: nat, p: Policy): (State, nat) -> bool {
    (s: State, n: nat) => Inv(s) && StuckBy(rule, s, ops, k, p) && s.index + Positions(|ops|, n) < U64_LIMIT
  }

  lemma LapReady(rule: Rule, s: State, ops: seq<Op>, k: nat, p: Policy, n: nat)
    returns (ss: seq<State>, opss: seq<seq<Op>>)
    requires Steadfast(rule, k, p) && Ready(rule, ops, k, p)(s, n + 1)
    ensures LapFrom(ss, opss, Rounds(rule, k, p), Ready(rule, ops, k, p), s, n)
  {
    ss, opss := Lap(rule, s, ops, k, p);
  }

  lemma LapAgain(rule: Rule, s: State, ops: seq<Op>, k: nat, p: Policy, n: nat)
    requires Steadfast(rule, k, p)
    ensures CanLap(Rounds(rule, k, p), Ready(rule, ops, k, p), s, n)
  {
    if Ready(rule, ops, k, p)(s, n + 1) {
      var ss, opss := LapReady(rule, s, ops, k, p, n);
    }
  }

  /** Once it can get stuck, the controller can go on for as many rounds as the log has room for. */
  lemma EndlessRounds(rule: Rule, s: State, ops: seq<Op>, k: nat, p: Policy, n: nat)
    returns (ss: seq<State>, opss: seq<seq<Op>>)
    requires Steadfast(rule, k, p) && Inv(s) && StuckBy(rule, s, ops, k, p) && s.index + Positions(|ops|, n) < U64_LIMIT
    ensures RoundsFrom(rule, ss, opss, s, k, p) && |opss| >= n
  {
    var step, ready := Rounds(rule, k, p), Ready(rule, ops, k, p);
    forall x, m: nat ensures CanLap(step, ready, x, m) {
      LapAgain(rule, x, ops, k, p, m);
    }
    ss, opss := Laps(step, ready, s, n);
  }

  /******* The exact condition *******/

  ghost predicate Lasts(rule: Rule, ss: seq<State>, opss: seq<seq<Op>>, s: State, k: nat, p: Policy, n: nat) {
    RoundsFrom(rule, ss, opss, s, k, p) && |opss| >= n
  }

  ghost predicate GetsStuck(rule: Rule, ss: seq<State>, opss: seq<seq<Op>>, s: State, k: nat, p: Policy) {
    RoundsFrom(rule, ss, opss, s, k, p) && Stuck(rule, ss[|opss|], k, p)
  }

  /** Log positions for `n` more rounds. */
  ghost predicate RoomFor(s: State, k: nat, p: Policy, n: nat) {
    s.index + Effort(s, k, p) + Positions(Short(s, k, p), n) < U64_LIMIT
  }

  lemma LongGetsStuck(rule: Rule, ss: seq<State>, opss: seq<seq<Op>>, s: State, k: nat, p: Policy)
    returns (tt: seq<State>, more: seq<seq<Op>>)
    requires RoundsFrom(rule, ss, opss, s, k, p) && Inv(s) && |opss| > Effort(s, k, p)
    ensures GetsStuck(rule, tt, more, s, k, p)
  {
    if forall m :: 0 <= m < |opss| ==> !Stuck(rule, ss[m], k, p) {
      RoundsEnd(rule, ss, opss, s, k, p);
    }
    var m :| 0 <= m < |opss| && Stuck(rule, ss[m], k, p);
    ChainPrefix(ss, opss, Rounds(rule, k, p), m);
    tt, more := ss[..m + 1], opss[..m];
  }

  /** The first stuck state of a run. */
  lemma {:induction false} FirstStuck(rule: Rule, ss: seq<State>, k: nat, p: Policy, i: nat) returns (m: nat)
    requires i < |ss| && Stuck(rule, ss[i], k, p)
    ensures m <= i && Stuck(rule, ss[m], k, p) && forall j :: 0 <= j < m ==> !Stuck(rule, ss[j], k, p)
  {
    m := i;
    if j :| 0 <= j < i && Stuck(rule, ss[j], k, p) {
      m := FirstStuck(rule, ss, k, p, j);
    }
  }

  lemma RoomLeft(s: State, t: State, k: nat, p: Policy, n: nat, c: nat)
    requires RoomFor(s, k, p, n) && Spent(s, t, k, p) && c <= Short(t, k, p)
    ensures t.index + Positions(c, n) < U64_LIMIT
  {
    PositionsGrow(c, Short(s, k, p), n);
  }

  lemma StuckLasts(rule: Rule, ss: seq<State>, opss: seq<seq<Op>>, s: State, k: nat, p: Policy, n: nat)
    returns (tt: seq<State>, more: seq<seq<Op>>)
    requires Steadfast(rule, k, p) && Inv(s) && GetsStuck(rule, ss, opss, s, k, p) && RoomFor(s, k, p, n)
    ensures Lasts(rule, tt, more, s, k, p, n)
  {
    var m := FirstStuck(rule, ss, k, p, |opss|);
    FreeRounds(rule, ss, opss, k, p, m);
    var ops :| StuckBy(rule, ss[m], ops, k, p);
    PassGraded(ss[m], k, p, ops);
    RoomLeft(s, ss[m], k, p, n, |ops|);
    var rest, acts := EndlessRounds(rule, ss[m], ops, k, p, n);
    ChainPrefix(ss, opss, Rounds(rule, k, p), m);
    ChainConcat(ss[..m + 1], opss[..m], rest, acts, Rounds(rule, k, p));
    tt, more := ss[..m + 1][..m] + rest, opss[..m] + acts;
  }

  /** The manager can go round for ever exactly if some run of rounds gets the controller stuck. Without
      such a run, no run is longer than the effort; with one, there are runs of every length. */
  lemma LoopsExactly(rule: Rule, s: State, k: nat, p: Policy, n: nat)
    requires Steadfast(rule, k, p) && Inv(s) && n > Effort(s, k, p) && RoomFor(s, k, p, n)
    ensures (exists ss, opss :: Lasts(rule, ss, opss, s, k, p, n))
            <==> (exists ss, opss :: GetsStuck(rule, ss, opss, s, k, p))
  {
    if ss, opss :| Lasts(rule, ss, opss, s, k, p, n) {
      var tt, more := LongGetsStuck(rule, ss, opss, s, k, p);
    }
    if ss, opss :| GetsStuck(rule, ss, opss, s, k, p) {
      var tt, more := StuckLasts(rule, ss, opss, s, k, p, n);
    }
  }

  /******* When a controller is stuck *******/

  /** Where every admitted host carries the vary key, no controller is stuck. */
  lemma CarriedNotStuck(rule: Rule, s: State, k: nat, p: Policy)
    requires Carried(s, p)
    ensures !Stuck(rule, s, k, p)
  {
    forall ops: seq<Op> ensures !StuckBy(rule, s, ops, k, p) {
      if Undesired(s, k, p) == {} && ops != [] && Passes(s, k, p, ops) {
        CarriedGains(s, k, p, ops);
      }
    }
  }

  /** Any hosts that the policy allows. */
  ghost function AnyHosts(k: nat, p: Policy): Rule {
    (s, ops) => Passes(s, k, p, ops)
  }

  lemma AnySteadfast(k: nat, p: Policy)
    ensures Steadfast(AnyHosts(k, p), k, p)
  {
    var rule := AnyHosts(k, p);
    forall s: State, t: State, ops: seq<Op>
      | rule(s, ops) && SameFits(s, t, k, p) && Undesired(s, k, p) == {} && Undesired(t, k, p) == {}
      ensures rule(t, ops)
    {
      FitsPasses(s, t, k, p, ops);
    }
  }

  /** Each group in one go, and each time the first host of the list that is still to be had. */
  ghost predicate Lined(before: (string, string) -> bool, s: State, k: nat, p: Policy, placed: seq<Placed>) {
    && (forall i, j, l :: 0 <= i < j < l < |placed| && placed[i].group == placed[l].group ==>
          placed[j].group == placed[i].group)
    && (forall i, h {:trigger placed[i], before(placed[i].host, h)} ::
          0 <= i < |placed| && h in Eligible(s, k, p, placed[i].group) && h !in PlacedHosts(placed[..i + 1]) ==>
            before(placed[i].host, h))
  }

  /** The hosts in the order in which the registry lists them. */
  ghost function FirstHosts(before: (string, string) -> bool, k: nat, p: Policy): Rule {
    (s, ops) =>
      if Undesired(s, k, p) != {} then Passes(s, k, p, ops)
      else exists placed :: ops == Creates(k, placed) && Sound(s, k, p, placed) && Maximal(s, k, p, placed)
             && Lined(before, s, k, p, placed)
  }

  lemma LinedUnseen(before: (string, string) -> bool, s: State, t: State, k: nat, p: Policy, placed: seq<Placed>)
    requires SameFits(s, t, k, p) && Sound(s, k, p, placed) && Maximal(s, k, p, placed) && Lined(before, s, k, p, placed)
    ensures Sound(t, k, p, placed) && Maximal(t, k, p, placed) && Lined(before, t, k, p, placed)
  {
    forall g ensures Eligible(t, k, p, g) == Eligible(s, k, p, g) && Missing(t, k, p, g) == Missing(s, k, p, g)
      ensures Candidates(t, k, p, g) == Candidates(s, k, p, g)
    {
      FitsEligible(s, t, k, p, g);
    }
  }

  lemma FirstSteadfast(before: (string, string) -> bool, k: nat, p: Policy)
    ensures Steadfast(FirstHosts(before, k, p), k, p)
  {
    var rule := FirstHosts(before, k, p);
    forall s: State, t: State, ops: seq<Op>
      | rule(s, ops) && SameFits(s, t, k, p) && Undesired(s, k, p) == {} && Undesired(t, k, p) == {}
      ensures rule(t, ops)
    {
      var placed: seq<Placed> :| ops == Creates(k, placed) && Sound(s, k, p, placed) && Maximal(s, k, p, placed)
                                 && Lined(before, s, k, p, placed);
      LinedUnseen(before, s, t, k, p, placed);
    }
  }

  /******* One group *******/

  /** Hosts to be had that gain nothing. */
  ghost function Useless(s: State, k: nat, p: Policy, g: string): set<string> {
    set h | h in Eligible(s, k, p, g) && LacksKey(s, p, h)
  }

  lemma {:induction false} PlacedSize(placed: seq<Placed>)
    requires forall i, j :: 0 <= i < j < |placed| ==> placed[i].host != placed[j].host
    ensures |PlacedHosts(placed)| == |placed|
  {
    if placed != [] {
      var front, last := placed[..|placed| - 1], placed[|placed| - 1];
      PlacedSize(front);
      PlacedSnoc(front, last);
      assert placed == front + [last];
      assert last.host !in PlacedHosts(front);
    }
  }

  ghost predicate Picked(placed: seq<Placed>, hosts: set<string>, g: string) {
    && (forall i :: 0 <= i < |placed| ==> placed[i].host in hosts && placed[i].group == g)
    && (forall i, j :: 0 <= i < j < |placed| ==> placed[i].host != placed[j].host)
  }

  lemma {:induction false} Pick(hosts: set<string>, g: string, n: nat) returns (placed: seq<Placed>)
    requires n <= |hosts|
    ensures Picked(placed, hosts, g) && |placed| == n
  {
    placed := [];
    if n > 0 {
      var h :| h in hosts;
      assert |hosts - {h}| == |hosts| - 1;
      var rest := Pick(hosts - {h}, g, n - 1);
      placed := rest + [Placed(h, g)];
    }
  }

  lemma {:induction false} CountOther(placed: seq<Placed>, g: string, x: string)
    requires x != g && forall i :: 0 <= i < |placed| ==> placed[i].group == g
    ensures CountOf(placed, x) == 0
  {
    if placed != [] {
      CountOther(placed[..|placed| - 1], g, x);
    }
  }

  lemma PickedPass(s: State, k: nat, p: Policy, g: string, placed: seq<Placed>)
    requires p.desired.Keys == {g} && Picked(placed, Useless(s, k, p, g), g)
    requires |placed| == Missing(s, k, p, g) || (|placed| <= Missing(s, k, p, g) && |placed| == |Eligible(s, k, p, g)|)
    ensures Sound(s, k, p, placed) && Maximal(s, k, p, placed)
  {
    CountAll(placed, g);
    forall x | x != g ensures CountOf(placed, x) == 0 {
      CountOther(placed, g, x);
    }
    PlacedSize(placed);
    assert PlacedHosts(placed) <= Eligible(s, k, p, g);
    if |placed| == |Eligible(s, k, p, g)| {
      SameSize(PlacedHosts(placed), Eligible(s, k, p, g));
    }
  }

  lemma SameSize<T>(a: set<T>, b: set<T>)
    requires a <= b && |a| == |b|
    ensures a == b
  {
    assert b == a + (b - a);
  }

  /** For a policy of one group: no misfit, a replica missing, and hosts without the vary key that could
      take all the missing ones, or are all there is. */
  ghost predicate Dead(s: State, k: nat, p: Policy, g: string) {
    && Undesired(s, k, p) == {} && Missing(s, k, p, g) > 0 && Useless(s, k, p, g) != {}
    && (|Useless(s, k, p, g)| >= Missing(s, k, p, g) || Useless(s, k, p, g) == Eligible(s, k, p, g))
  }

  lemma StuckDead(s: State, k: nat, p: Policy, g: string, ops: seq<Op>)
    requires p.desired.Keys == {g} && StuckBy(AnyHosts(k, p), s, ops, k, p)
    ensures Dead(s, k, p, g)
  {
    var placed: seq<Placed> :| ops == Creates(k, placed) && Sound(s, k, p, placed) && Maximal(s, k, p, placed);
    var useless := Useless(s, k, p, g);
    forall i | 0 <= i < |placed| ensures placed[i].group == g && placed[i].host in useless {
      assert ops[i].host == placed[i].host;
      assert placed[i].host in Eligible(s, k, p, placed[i].group);
    }
    CountAll(placed, g);
    PlacedSize(placed);
    assert PlacedHosts(placed) <= useless;
    SubsetSize(PlacedHosts(placed), useless);
    assert placed[0].host in useless;
  }

  lemma DeadStuck(s: State, k: nat, p: Policy, g: string) returns (ops: seq<Op>)
    requires p.desired.Keys == {g} && Dead(s, k, p, g)
    ensures StuckBy(AnyHosts(k, p), s, ops, k, p)
  {
    var useless, n := Useless(s, k, p, g), Missing(s, k, p, g);
    var placed := Pick(useless, g, if |useless| >= n then n else |useless|);
    PickedPass(s, k, p, g, placed);
    ops := Creates(k, placed);
  }

  /** Whether a controller that may pick any hosts is stuck, by counting. */
  lemma StuckExactly(s: State, k: nat, p: Policy, g: string)
    requires p.desired.Keys == {g}
    ensures Stuck(AnyHosts(k, p), s, k, p) <==> Dead(s, k, p, g)
  {
    if ops: seq<Op> :| StuckBy(AnyHosts(k, p), s, ops, k, p) {
      StuckDead(s, k, p, g, ops);
    }
    if Dead(s, k, p, g) {
      var ops := DeadStuck(s, k, p, g);
    }
  }
}
