/**
 The controller manager: reconcile every shard that changed since the last tick against a fresh
 snapshot, start over after each change, and stop when a whole sweep changes nothing. While the
 manager is the only proposer the sweeps come to an end, whichever proposals fail, and after a tick
 without errors every shard that had changed is settled.
 */
module ShardManager {
  import opened Numerals
  import opened Registry
  import opened RegistryRuns
  import opened Iteration
  import opened Placement
  import opened PlacementPolicy
  import opened Reconciler
  import opened Convergence

  /******* Progress over all shards *******/

  ghost function Distances(s: State, pol: nat -> Policy): nat -> nat {
    k => Distance(s, k, pol(k))
  }

  ghost function Total(s: State, pol: nat -> Policy, index: nat): nat {
    Sum(Above(s, index), Distances(s, pol))
  }

  lemma TotalBounds(s: State, k: nat, pol: nat -> Policy, index: nat)
    requires k in Above(s, index)
    ensures Distance(s, k, pol(k)) <= Total(s, pol, index)
  {
    SumPick(Above(s, index), Distances(s, pol), k);
  }

  lemma OtherDistance(s: State, t: State, k: nat, j: nat, p: Policy)
    requires Only(s, t, k) && j != k
    ensures Distance(t, j, p) == Distance(s, j, p)
    ensures Done(t, j, p) <==> Done(s, j, p)
  {
    KeepsTags(s, t);
    SpotsMissing(s, t, j, p);
    SpotsDone(s, t, j, p);
  }

  lemma SameAbove(s: State, t: State, k: nat, index: nat)
    requires Only(s, t, k) && k in Above(s, index)
    ensures Above(t, index) == Above(s, index)
  {
  }

  lemma TotalLess(s: State, t: State, k: nat, pol: nat -> Policy, index: nat)
    requires Only(s, t, k) && k in Above(s, index) && Distance(t, k, pol(k)) < Distance(s, k, pol(k))
    ensures Total(t, pol, index) < Total(s, pol, index)
  {
    SameAbove(s, t, k, index);
    var f, f' := Distances(s, pol), Distances(t, pol);
    forall j | j != k ensures f'(j) == f(j) {
      OtherDistance(s, t, k, j, pol(j));
    }
    assert f'(k) < f(k);
    SumLess(Above(s, index), f, f');
  }

  /** Enough log positions for every sweep that can still come. */
  ghost function Room(total: nat, shards: nat): nat {
    if total == 0 then shards else total + shards + Room(total - 1, shards)
  }

  lemma {:induction false} RoomGrows(a: nat, b: nat, shards: nat)
    requires a <= b
    ensures shards <= Room(a, shards) <= Room(b, shards)
    ensures a < b ==> b + shards + Room(a, shards) <= Room(b, shards)
  {
    if a < b {
      RoomGrows(a, b - 1, shards);
    }
  }

  /******* Watermark *******/

  /** Every shard at or below the watermark is settled. */
  ghost predicate CaughtUp(s: State, index: nat, pol: nat -> Policy) {
    forall k {:trigger Done(s, k, pol(k))} ::
      k in s.shards && k != 0 && s.shards[k].updated <= index ==> Done(s, k, pol(k))
  }

  lemma CaughtUpOnly(s: State, t: State, k: nat, index: nat, pol: nat -> Policy)
    requires Only(s, t, k) && CaughtUp(s, index, pol)
    requires k in t.shards ==> t.shards[k].updated > index
    ensures CaughtUp(t, index, pol)
  {
    forall j | j in t.shards && j != 0 && t.shards[j].updated <= index ensures Done(t, j, pol(j)) {
      OtherDistance(s, t, k, j, pol(j));
    }
  }

  /** `t` is `s` but for error tags. */
  ghost predicate Near(s: State, t: State) {
    && Keeps(s, t)
    && t.replicas == s.replicas && t.replicaCounter == s.replicaCounter
    && (forall k :: k in s.shards ==> t.shards[k].updated == s.shards[k].updated)
  }

  lemma NearOnly(s: State, t: State, k: nat)
    requires Near(s, t)
    ensures Only(s, t, k)
  {
  }

  lemma NearRevised(s: State, t: State, shards: set<nat>, pol: nat -> Policy)
    requires Near(s, t)
    ensures Revised(s, t, shards, pol)
  {
    KeepsTags(s, t);
  }

  lemma NearAbove(s: State, t: State, index: nat)
    requires Near(s, t)
    ensures Above(t, index) == Above(s, index)
  {
  }

  lemma NearSame(s: State, t: State, index: nat, pol: nat -> Policy)
    requires Near(s, t)
    ensures Total(t, pol, index) == Total(s, pol, index)
    ensures CaughtUp(s, index, pol) ==> CaughtUp(t, index, pol)
  {
    KeepsTags(s, t);
    NearAbove(s, t, index);
    forall k ensures Distance(t, k, pol(k)) == Distance(s, k, pol(k))
      ensures Done(t, k, pol(k)) <==> Done(s, k, pol(k))
    {
      SpotsMissing(s, t, k, pol(k));
      SpotsDone(s, t, k, pol(k));
    }
    SumLess(Above(s, index), Distances(s, pol), Distances(t, pol));
    SumLess(Above(s, index), Distances(t, pol), Distances(s, pol));
  }

  /** `reg` to `t` is a proper step of a plan for shard `k`. */
  ghost predicate Advanced(reg: State, t: State, k: nat, p: Policy) {
    && Only(reg, t, k) && Revised(reg, t, {k}, Just(p))
    && Distance(t, k, p) < Distance(reg, k, p)
    && k in t.shards && t.shards[k].updated == t.index
  }

  lemma PlanStep(s: State, reg: State, t: State, k: nat, p: Policy, ops: seq<Op>, i: nat)
    requires Keeps(s, reg) && SameSpots(s, reg, k) && Plan(s, k, p, ops) && Carried(s, p)
    requires Inv(reg) && Inv(t) && k in t.shards && t.index + 1 < U64_LIMIT
    requires i < |ops| && if i == 0 then t == reg else Advanced(reg, t, k, p)
    ensures var step := Proposed(t, ops[i]);
            && step.Next? && Inv(step.state) && step.state.index == t.index + 1
            && Advanced(reg, step.state, k, p)
  {
    OpStep(s, reg, t, k, p, ops, i);
    var u := Proposed(t, ops[i]).state;
    if i > 0 {
      OnlyTrans(reg, t, u, k);
      RevisedTrans(reg, t, u, {k}, Just(p));
    }
  }

  lemma OpStep(s: State, reg: State, t: State, k: nat, p: Policy, ops: seq<Op>, i: nat)
    requires Keeps(s, reg) && SameSpots(s, reg, k) && Plan(s, k, p, ops) && Carried(s, p)
    requires Inv(t) && k in t.shards && t.index + 1 < U64_LIMIT
    requires i < |ops| && if i == 0 then t == reg else Only(reg, t, k)
    ensures var step := Proposed(t, ops[i]);
            && step.Next? && Inv(step.state) && step.state.index == t.index + 1
            && Only(t, step.state, k) && Revised(t, step.state, {k}, Just(p))
            && step.state.shards[k].updated == t.index + 1
            && Distance(step.state, k, p) <= Distance(t, k, p)
            && (i == 0 ==> Distance(step.state, k, p) < Distance(t, k, p))
  {
    if ops[i].Create? {
      PlanCreates(s, k, p, ops, i);
      if i > 0 {
        KeepsTrans(s, reg, t);
      }
      CreateStep(s, t, k, p, ops[i], i == 0);
    } else {
      PlanDeletes(s, k, p, ops, i);
      KeepsTags(s, t);
      SpotsMissing(s, t, k, p);
      DeleteStep(t, k, p, ops[i].replica);
    }
  }

  /** After a pass that changed something: closer to the policy, and stamped past the old log. */
  ghost predicate Moved(reg: State, t: State, k: nat, p: Policy) {
    && Only(reg, t, k) && Revised(reg, t, {k}, Just(p))
    && Distance(t, k, p) < Distance(reg, k, p)
    && k in t.shards && t.shards[k].updated > reg.index
  }

  lemma MovedNear(reg: State, t: State, u: State, k: nat, p: Policy)
    requires Inv(reg) && Advanced(reg, t, k, p) && t.index > reg.index && Near(t, u)
    ensures Moved(reg, u, k, p)
  {
    NearOnly(t, u, k);
    NearRevised(t, u, {k}, Just(p));
    OnlyTrans(reg, t, u, k);
    RevisedTrans(reg, t, u, {k}, Just(p));
    KeepsTags(t, u);
    SpotsMissing(t, u, k, p);
  }

  lemma NearRefl(s: State)
    ensures Near(s, s)
  {
  }

  lemma NearTrans(s: State, t: State, u: State)
    requires Near(s, t) && Near(t, u)
    ensures Near(s, u)
  {
    KeepsTrans(s, t, u);
  }

  /** What the pass's contract makes of its proposals. */
  lemma PassPlan(s: State, k: nat, p: Policy, ok: bool, was: seq<Op>, placed: seq<Placed>, ops: seq<Op>)
    requires Undesired(s, k, p) != {} ==>
               if ok then exists r :: FirstMisfit(s, k, p, r) && ops == was + [Delete(r)] else ops == was
    requires Undesired(s, k, p) == {} ==> ops == was + Creates(k, placed) && Sound(s, k, p, placed)
    requires PlainVary(p) && ok && Undesired(s, k, p) == {} ==> Maximal(s, k, p, placed)
    ensures |was| <= |ops| && was == ops[..|was|] && Plan(s, k, p, ops[|was|..])
    ensures PlainVary(p) && ok ==> Passes(s, k, p, ops[|was|..])
    ensures ops == was && ok ==> Done(s, k, p)
  {
    if Undesired(s, k, p) == {} {
      assert ops[|was|..] == Creates(k, placed);
    } else if ok {
      var r :| FirstMisfit(s, k, p, r) && ops == was + [Delete(r)];
      assert ops[|was|..] == [Delete(r)];
    } else {
      assert ops[|was|..] == Creates(k, []);
      NothingSound(s, k, p);
    }
  }

  lemma NothingSound(s: State, k: nat, p: Policy)
    ensures Sound(s, k, p, [])
  {
  }

  /** The controller's pass over one shard, against the one policy its tags state. */
  method PlanPass(controls: Controls, s: State, k: nat, ghost p: Policy) returns (ok: bool, ops: seq<Op>)
    requires Workable(s, k, p) && s.shards[k].id == k
    modifies controls
    ensures Plan(s, k, p, ops) && |ops| <= Distance(s, k, p)
    ensures controls.updated <==> ops != []
    ensures PlainVary(p) && ok ==> Passes(s, k, p, ops)
    ensures ok && ops == [] ==> Done(s, k, p)
    ensures Asked(controls.answers, old(controls.asked), controls.asked, ok)
  {
    controls.updated := false;
    var done := |controls.ops|;
    ghost var read, placed;
    ok, read, placed := Reconcile(controls, s, s.shards[k]);
    StatesUnique(Decls(s.shards[k].tags.Entries()), s.hosts, read, p);
    PassPlan(s, k, p, ok, old(controls.ops), placed, controls.ops);
    ops := controls.ops[done..];
    PlanShort(s, k, p, ops);
  }

  /** Every shard above the watermark is settled. */
  ghost predicate SettledAbove(s: State, index: nat, pol: nat -> Policy) {
    forall k {:trigger Done(s, k, pol(k))} ::
      k in s.shards && k != 0 && s.shards[k].updated > index ==> Done(s, k, pol(k))
  }

  /** In the middle of a sweep that has changed no replica: `todo` is still to be visited. */
  ghost predicate Sweeping(s: State, t: State, todo: set<nat>, index: nat) {
    && todo <= Above(s, index)
    && Inv(t) && Near(s, t) && s.index <= t.index
    && t.index + |todo| <= s.index + |s.shards|
  }

  ghost predicate SettledBut(s: State, todo: set<nat>, index: nat, pol: nat -> Policy) {
    forall k {:trigger Done(s, k, pol(k))} ::
      k in s.shards && k != 0 && s.shards[k].updated > index && k !in todo ==> Done(s, k, pol(k))
  }

  lemma SettledButOne(s: State, todo: set<nat>, k: nat, index: nat, pol: nat -> Policy)
    ensures SettledBut(s, todo, index, pol) && Done(s, k, pol(k)) ==>
              SettledBut(s, todo - {k}, index, pol)
  {
  }

  ghost predicate Carries(s: State, t: State, index: nat, pol: nat -> Policy) {
    && Inv(t) && Steady(t, pol, index) && Keeps(s, t) && Above(t, index) == Above(s, index)
    && Revised(s, t, Above(s, index), pol)
    && s.index <= t.index <= s.index + Total(s, pol, index) + |s.shards|
    && (CaughtUp(s, index, pol) ==> CaughtUp(t, index, pol))
  }

  /** A sweep that changed something: closer to the policies, and there is a shard to look at again. */
  ghost predicate Swept(s: State, t: State, index: nat, pol: nat -> Policy) {
    Carries(s, t, index, pol) && Total(t, pol, index) < Total(s, pol, index) && Above(t, index) != {}
  }

  ghost predicate Idle(s: State, t: State, index: nat, pol: nat -> Policy) {
    Carries(s, t, index, pol) && Near(s, t)
  }

  lemma MovedTotal(s: State, t: State, u: State, k: nat, index: nat, pol: nat -> Policy)
    requires Near(s, t) && Moved(t, u, k, pol(k)) && k in Above(s, index) && t.index >= index
    ensures Total(u, pol, index) < Total(s, pol, index) && Above(u, index) == Above(s, index)
    ensures CaughtUp(s, index, pol) ==> CaughtUp(u, index, pol)
  {
    NearAbove(s, t, index);
    NearSame(s, t, index, pol);
    SameAbove(t, u, k, index);
    TotalLess(t, u, k, pol, index);
    if CaughtUp(s, index, pol) {
      CaughtUpOnly(t, u, k, index, pol);
    }
  }

  lemma SweepMoved(s: State, t: State, u: State, k: nat, todo: set<nat>, index: nat, pol: nat -> Policy)
    requires Inv(s) && Sweeping(s, t, todo, index) && k in todo && index <= s.index && Steady(s, pol, index)
    requires Inv(u) && Moved(t, u, k, pol(k))
    requires t.index <= u.index <= t.index + Distance(s, k, pol(k)) + 1
    ensures Swept(s, u, index, pol)
  {
    MovedTotal(s, t, u, k, index, pol);
    TotalBounds(s, k, pol, index);
    KeepsTrans(s, t, u);
    SteadyKept(s, u, pol, index);
    MovedRevised(s, t, u, k, Above(s, index), pol);
  }

  lemma MovedRevised(s: State, t: State, u: State, k: nat, shards: set<nat>, pol: nat -> Policy)
    requires Inv(s) && Near(s, t) && Moved(t, u, k, pol(k)) && k in shards
    ensures Revised(s, u, shards, pol)
  {
    NearRevised(s, t, shards, pol);
    RevisedMore(t, u, k, shards, pol);
    RevisedTrans(s, t, u, shards, pol);
  }

  lemma SweepOn(s: State, t: State, u: State, k: nat, todo: set<nat>, index: nat)
    requires Sweeping(s, t, todo, index) && k in todo && Inv(u) && Near(s, u) && t.index <= u.index <= t.index + 1
    ensures Sweeping(s, u, todo - {k}, index)
  {
    assert |todo - {k}| == |todo| - 1;
  }

  /** What any outcome of a pass makes of the sweep. */
  lemma SweepStep(s: State, t: State, k: nat, todo: set<nat>, index: nat, pol: nat -> Policy)
    requires Inv(s) && Sweeping(s, t, todo, index) && k in todo && index <= s.index && Steady(s, pol, index)
    ensures forall u {:trigger Moved(t, u, k, pol(k))} ::
              Inv(u) && Moved(t, u, k, pol(k)) && t.index <= u.index <= t.index + Distance(s, k, pol(k)) + 1 ==>
                Swept(s, u, index, pol)
    ensures forall u {:trigger Near(s, u)} ::
              Inv(u) && Near(s, u) && t.index <= u.index <= t.index + 1 ==> Sweeping(s, u, todo - {k}, index)
  {
    forall u | Inv(u) && Moved(t, u, k, pol(k)) && t.index <= u.index <= t.index + Distance(s, k, pol(k)) + 1
      ensures Swept(s, u, index, pol)
    {
      SweepMoved(s, t, u, k, todo, index, pol);
    }
    forall u | Inv(u) && Near(s, u) && t.index <= u.index <= t.index + 1 ensures Sweeping(s, u, todo - {k}, index) {
      SweepOn(s, t, u, k, todo, index);
    }
  }

  lemma SweepIdle(s: State, t: State, index: nat, pol: nat -> Policy)
    requires Sweeping(s, t, {}, index) && Steady(s, pol, index)
    ensures Idle(s, t, index, pol)
    ensures SettledBut(s, {}, index, pol) ==> SettledAbove(t, index, pol)
  {
    NearAbove(s, t, index);
    NearRevised(s, t, Above(s, index), pol);
    SteadyKept(s, t, pol, index);
    NearSame(s, t, index, pol);
    NearSettled(s, t, index, pol);
  }

  lemma NearSettled(s: State, t: State, index: nat, pol: nat -> Policy)
    requires Near(s, t)
    ensures SettledBut(s, {}, index, pol) ==> SettledAbove(t, index, pol)
  {
    KeepsTags(s, t);
    forall k | k in s.shards ensures Done(t, k, pol(k)) <==> Done(s, k, pol(k)) {
      SpotsDone(s, t, k, pol(k));
    }
  }

  /******* The manager's loop *******/

  /** Commit what a pass proposed, in order. */
  method Commit(reg: State, ops: seq<Op>, ghost s: State, ghost k: nat, ghost p: Policy) returns (t: State)
    requires Inv(reg) && Keeps(s, reg) && SameSpots(s, reg, k) && k in reg.shards
    requires Plan(s, k, p, ops) && Carried(s, p)
    requires reg.index + |ops| < U64_LIMIT
    ensures Inv(t) && t.index == reg.index + |ops|
    ensures if ops == [] then t == reg else Advanced(reg, t, k, p)
  {
    t := reg;
    for i := 0 to |ops|
      invariant Inv(t) && t.index == reg.index + i
      invariant if i == 0 then t == reg else Advanced(reg, t, k, p)
    {
      PlanStep(s, reg, t, k, p, ops, i);
      t := Proposed(t, ops[i]).state;
    }
  }

  /** A failed pass leaves its error in the shard's tags, and the next good one removes it. A shard
      without a tag map cannot take the error: the registry panics. */
  method NoteOutcome(reg: State, k: nat, ok: bool, text: string, noted: bool) returns (t: State, crashed: bool)
    requires Inv(reg) && k in reg.shards && reg.index + 1 < U64_LIMIT
    requires noted ==> reg.shards[k].tags.Tags?
    ensures crashed <==> !ok && reg.shards[k].tags.NilTags?
    ensures Inv(t) && Near(reg, t) && reg.index <= t.index <= reg.index + 1
    ensures !ok && !crashed ==> "zongzi:controller:error" in t.shards[k].tags.Entries()
    ensures ok && noted ==> "zongzi:controller:error" !in t.shards[k].tags.Entries()
    ensures ok && !noted ==> t == reg
  {
    NearRefl(reg);
    t, crashed := reg, false;
    if !ok {
      NoteCrashesExactly(reg, k, Some(text));
      crashed := Noted(reg, k, Some(text)).Crash?;
      if !crashed {
        CommitNote(reg, k, Some(text));
        t := Noted(reg, k, Some(text)).state;
      }
    } else if noted {
      CommitNote(reg, k, None);
      t := Noted(reg, k, None).state;
    }
  }

  /** Reconcile one shard of the snapshot `s`, commit the outcome and note the error, if any. */
  method Pass(controls: Controls, s: State, reg: State, k: nat, text: string, ghost p: Policy)
    returns (ok: bool, t: State, crashed: bool)
    requires Inv(reg) && Near(s, reg) && Workable(s, k, p) && s.shards[k].id == k
    requires reg.index + Distance(s, k, p) + 1 < U64_LIMIT
    modifies controls
    ensures crashed <==> !ok && s.shards[k].tags.NilTags?
    ensures Inv(t) && reg.index <= t.index <= reg.index + Distance(s, k, p) + 1
    ensures controls.updated ==> Moved(reg, t, k, p)
    ensures !controls.updated ==> Near(s, t) && t.index <= reg.index + 1
    ensures !controls.updated && ok ==> Done(s, k, p)
    ensures Asked(controls.answers, old(controls.asked), controls.asked, ok)
  {
    var ops;
    ok, ops := PlanPass(controls, s, k, p);
    var u := Commit(reg, ops, s, k, p);
    t, crashed := NoteOutcome(u, k, ok, text, ERROR_TAG in s.shards[k].tags.Entries());
    if ops != [] {
      MovedNear(reg, u, t, k, p);
    } else {
      NearTrans(s, u, t);
    }
  }

  /** In the middle of a sweep; without an error so far, whatever has been visited is settled. */
  ghost predicate Midway(s: State, t: State, todo: set<nat>, hadErr: bool, index: nat, pol: nat -> Policy) {
    Sweeping(s, t, todo, index) && (hadErr || SettledBut(s, todo, index, pol))
  }

  lemma SweepStart(s: State, index: nat, pol: nat -> Policy)
    requires Inv(s)
    ensures Midway(s, s, Above(s, index), false, index, pol)
  {
    NearRefl(s);
    SubsetSize(Above(s, index), s.shards.Keys);
    assert |s.shards.Keys| == |s.shards|;
  }

  lemma SweepEnd(s: State, t: State, hadErr: bool, index: nat, pol: nat -> Policy)
    requires Midway(s, t, {}, hadErr, index, pol) && Steady(s, pol, index)
    ensures Idle(s, t, index, pol)
    ensures !hadErr ==> SettledAbove(t, index, pol)
  {
    SweepIdle(s, t, index, pol);
  }

  ghost predicate Affordable(s: State, index: nat, pol: nat -> Policy) {
    Inv(s) && Steady(s, pol, index) && index <= s.index && s.index + Total(s, pol, index) + |s.shards| < U64_LIMIT
  }

  /** Some shard to be visited has no tag map. */
  ghost predicate Untagged(s: State, index: nat) {
    exists k :: k in Above(s, index) && s.shards[k].tags.NilTags?
  }

  lemma VisitStep(s: State, t: State, k: nat, todo: set<nat>, hadErr: bool, index: nat, pol: nat -> Policy)
    requires Affordable(s, index, pol) && Midway(s, t, todo, hadErr, index, pol) && k in todo
    ensures t.index + Distance(s, k, pol(k)) + 1 < U64_LIMIT && Workable(s, k, pol(k))
    ensures forall u {:trigger Moved(t, u, k, pol(k))} ::
              Inv(u) && Moved(t, u, k, pol(k)) && t.index <= u.index <= t.index + Distance(s, k, pol(k)) + 1 ==>
                Swept(s, u, index, pol)
    ensures forall u, e {:trigger Midway(s, u, todo - {k}, e, index, pol)} ::
              Inv(u) && Near(s, u) && t.index <= u.index <= t.index + 1 && (hadErr ==> e) && (e || Done(s, k, pol(k)))
              ==> Midway(s, u, todo - {k}, e, index, pol)
  {
    TotalBounds(s, k, pol, index);
    assert |todo| > 0;
    assert Workable(s, k, pol(k));
    SettledButOne(s, todo, k, index, pol);
    SweepStep(s, t, k, todo, index, pol);
  }

  method Visit(controls: Controls, s: State, reg: State, k: nat, ghost todo: set<nat>, err: bool, index: nat,
               text: string, ghost pol: nat -> Policy, ghost from: nat)
    returns (hadErr: bool, t: State, crashed: bool)
    requires Affordable(s, index, pol) && Midway(s, reg, todo, err, index, pol) && k in todo
    requires Asked(controls.answers, from, controls.asked, !err)
    modifies controls
    ensures crashed ==> hadErr && Untagged(s, index)
    ensures !crashed && controls.updated ==> Swept(s, t, index, pol)
    ensures !crashed && !controls.updated ==> Midway(s, t, todo - {k}, hadErr, index, pol)
    ensures Asked(controls.answers, from, controls.asked, !hadErr)
  {
    VisitStep(s, reg, k, todo, err, index, pol);
    var ok;
    ok, t, crashed := Pass(controls, s, reg, k, text, pol(k));
    hadErr := err || !ok;
  }

  /** One sweep over a snapshot, cut short by the first pass that changes something. */
  method Sweep(controls: Controls, s: State, index: nat, text: string, ghost pol: nat -> Policy)
    returns (hadErr: bool, t: State, crashed: bool)
    requires Affordable(s, index, pol)
    requires controls.updated ==> Above(s, index) != {}
    modifies controls
    ensures crashed ==> hadErr && Untagged(s, index)
    ensures !crashed && controls.updated ==> Swept(s, t, index, pol)
    ensures !crashed && !controls.updated ==> Idle(s, t, index, pol)
    ensures !crashed && !controls.updated && !hadErr ==> SettledAbove(t, index, pol)
    ensures Asked(controls.answers, old(controls.asked), controls.asked, !hadErr)
  {
    hadErr, t, crashed := false, s, false;
    var todo := Above(s, index);
    SweepStart(s, index, pol);
    while todo != {}
      invariant !crashed
      invariant Midway(s, t, todo, hadErr, index, pol)
      invariant controls.updated ==> todo != {}
      invariant Asked(controls.answers, old(controls.asked), controls.asked, !hadErr)
    {
      var k := Oldest(s, todo);
      hadErr, t, crashed := Visit(controls, s, t, k, todo, hadErr, index, text, pol, old(controls.asked));
      if crashed || controls.updated {
        return;
      }
      todo := todo - {k};
    }
    SweepEnd(s, t, hadErr, index, pol);
  }

  lemma RoomEnough(total: nat, shards: nat)
    ensures total + shards <= Room(total, shards)
  {
    RoomGrows(0, total, shards);
  }

  /** What the sweeps done so far have achieved. */
  ghost predicate Ticking(reg: State, t: State, index: nat, pol: nat -> Policy) {
    && Inv(t) && Steady(t, pol, index) && Keeps(reg, t) && index <= reg.index <= t.index
    && Above(t, index) == Above(reg, index) && Revised(reg, t, Above(reg, index), pol)
    && (CaughtUp(reg, index, pol) ==> CaughtUp(t, index, pol))
  }

  ghost predicate Roomy(t: State, pol: nat -> Policy, index: nat) {
    t.index + Room(Total(t, pol, index), |t.shards|) < U64_LIMIT
  }

  lemma TickReady(reg: State, t: State, index: nat, pol: nat -> Policy)
    requires Ticking(reg, t, index, pol) && Roomy(t, pol, index)
    ensures Affordable(t, index, pol)
    ensures Untagged(t, index) ==> Untagged(reg, index)
  {
    RoomEnough(Total(t, pol, index), |t.shards|);
  }

  lemma TickOn(reg: State, s: State, t: State, index: nat, pol: nat -> Policy)
    requires Inv(reg) && Ticking(reg, s, index, pol) && Carries(s, t, index, pol)
    ensures Ticking(reg, t, index, pol)
  {
    KeepsTrans(reg, s, t);
    RevisedTrans(reg, s, t, Above(reg, index), pol);
  }

  lemma TickSwept(reg: State, s: State, t: State, index: nat, pol: nat -> Policy)
    requires Inv(reg) && Ticking(reg, s, index, pol) && Roomy(s, pol, index) && Swept(s, t, index, pol)
    ensures Ticking(reg, t, index, pol) && Roomy(t, pol, index)
  {
    TickOn(reg, s, t, index, pol);
    assert |t.shards.Keys| == |t.shards| && |s.shards.Keys| == |s.shards|;
    RoomGrows(Total(t, pol, index), Total(s, pol, index), |s.shards|);
  }

  /** The tick's last sweep, over the snapshot `s`, changed nothing. */
  ghost predicate Finished(reg: State, s: State, t: State, hadErr: bool, index: nat, pol: nat -> Policy) {
    && Ticking(reg, t, index, pol)
    && index <= s.index <= t.index
    && (forall k :: k in t.shards ==> t.shards[k].updated <= s.index)
    && (hadErr || SettledAbove(t, index, pol))
  }

  lemma TickIdle(reg: State, s: State, t: State, hadErr: bool, index: nat, pol: nat -> Policy)
    requires Inv(reg) && Ticking(reg, s, index, pol) && Idle(s, t, index, pol) && (hadErr || SettledAbove(t, index, pol))
    ensures Finished(reg, s, t, hadErr, index, pol)
  {
    TickOn(reg, s, t, index, pol);
  }

  lemma FinishedCaughtUp(reg: State, s: State, t: State, index: nat, pol: nat -> Policy)
    requires Finished(reg, s, t, false, index, pol)
    ensures CaughtUp(reg, index, pol) ==> CaughtUp(t, s.index, pol)
  {
  }

  /** Between two sweeps of a tick. */
  ghost predicate Between(reg: State, t: State, index: nat, pol: nat -> Policy) {
    Ticking(reg, t, index, pol) && Roomy(t, pol, index)
  }

  method SweepAgain(controls: Controls, reg: State, s: State, err: bool, index: nat, text: string,
                    ghost pol: nat -> Policy)
    returns (failed: bool, t: State, crashed: bool)
    requires Inv(reg) && Between(reg, s, index, pol)
    requires controls.updated ==> Above(s, index) != {}
    modifies controls
    ensures crashed ==> failed && Untagged(reg, index)
    ensures !crashed && controls.updated ==>
              (Between(reg, t, index, pol) && Above(t, index) != {} && Total(t, pol, index) < Total(s, pol, index))
    ensures !crashed && !controls.updated ==> Finished(reg, s, t, err || failed, index, pol)
    ensures Asked(controls.answers, old(controls.asked), controls.asked, !failed)
  {
    TickReady(reg, s, index, pol);
    failed, t, crashed := Sweep(controls, s, index, text, pol);
    if crashed {
      return;
    }
    if controls.updated {
      TickSwept(reg, s, t, index, pol);
    } else {
      TickIdle(reg, s, t, err || failed, index, pol);
    }
  }

  /** Sweep until nothing changes, or the registry panics. */
  method SweepAll(reg: State, answers: seq<bool>, index: nat, text: string, ghost pol: nat -> Policy)
    returns (t: State, hadErr: bool, crashed: bool, seen: nat, ghost asked: nat)
    requires Inv(reg) && Steady(reg, pol, index) && index <= reg.index && Roomy(reg, pol, index)
    ensures crashed ==> hadErr && Untagged(reg, index)
    ensures Asked(answers, 0, asked, !hadErr)
    ensures !crashed ==> (index <= seen <= t.index && forall k :: k in t.shards ==> t.shards[k].updated <= seen)
    ensures !crashed ==> Ticking(reg, t, index, pol)
    ensures !hadErr ==> SettledAbove(t, index, pol)
    ensures !hadErr && CaughtUp(reg, index, pol) ==> CaughtUp(t, seen, pol)
  {
    var controls := new Controls(answers);
    ghost var s := reg;
    t, hadErr, crashed, seen, asked := reg, false, false, reg.index, 0;
    TickStart(reg, index, pol);
    var updated := true;
    while updated
      invariant !crashed
      invariant if updated then Between(reg, t, index, pol) && (controls.updated ==> Above(t, index) != {})
                else Finished(reg, s, t, hadErr, index, pol) && seen == s.index
      invariant controls.answers == answers && asked == controls.asked && Asked(answers, 0, asked, !hadErr)
      decreases if updated then Total(t, pol, index) + 1 else 0
    {
      s, seen := t, t.index;
      var failed;
      failed, t, crashed := SweepAgain(controls, reg, t, hadErr, index, text, pol);
      hadErr, asked := hadErr || failed, controls.asked;
      if crashed {
        return;
      }
      updated := controls.updated;
    }
    if !hadErr {
      FinishedCaughtUp(reg, s, t, index, pol);
    }
  }

  lemma TickStart(reg: State, index: nat, pol: nat -> Policy)
    requires Inv(reg) && Steady(reg, pol, index) && index <= reg.index
    ensures Ticking(reg, reg, index, pol)
  {
    NearRefl(reg);
    NearRevised(reg, reg, Above(reg, index), pol);
  }

  class Manager {
    var index: nat
    var isLeader: bool

    /** One tick. Whichever proposals fail, the sweeps end, and the watermark passes a shard only once it
        is settled. The registry can panic only over a failed pass on a shard without a tag map. */
    method Tick(reg: State, answers: seq<bool>, text: string, ghost pol: nat -> Policy)
      returns (t: State, hadErr: bool, crashed: bool, ghost asked: nat)
      requires Inv(reg) && Steady(reg, pol, index) && index <= reg.index && Roomy(reg, pol, index)
      modifies this`index
      ensures !isLeader ==> t == reg && index == old(index) && !hadErr && asked == 0
      ensures Asked(answers, 0, asked, !hadErr)
      ensures crashed ==> hadErr && Untagged(reg, old(index))
      ensures hadErr ==> index == old(index)
      ensures !crashed ==> (Inv(t) && Keeps(reg, t) && index <= t.index)
      ensures !crashed ==> Revised(reg, t, Above(reg, old(index)), pol)
      ensures isLeader && !hadErr ==>
                && SettledAbove(t, old(index), pol)
                && old(index) <= index && forall k :: k in t.shards ==> t.shards[k].updated <= index
      ensures !crashed && CaughtUp(reg, old(index), pol) ==> CaughtUp(t, index, pol)
    {
      var seen := 0;
      t, hadErr, crashed, asked := reg, false, false, 0;
      if isLeader {
        t, hadErr, crashed, seen, asked := SweepAll(reg, answers, index, text, pol);
      }
      if !hadErr && seen > index {
        index := seen;
      }
    }
  }
}
