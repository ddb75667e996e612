/**
 How far a shard is from its placement policy, and what each proposal of the shard controller does to
 that distance: a pass that proposes anything brings its own shard strictly closer and leaves every
 other shard where it is.
 */
module Convergence {
  import opened Numerals
  import opened Registry
  import opened RegistryRuns
  import opened TagText
  import opened Placement
  import opened PlacementPolicy

  /******* Sums *******/

  ghost function Sum<T>(s: set<T>, f: T -> nat): nat {
    if s == {} then 0 else var x :| x in s; f(x) + Sum(s - {x}, f)
  }

  lemma {:induction false} SumPick<T>(s: set<T>, f: T -> nat, x: T)
    requires x in s
    ensures Sum(s, f) == f(x) + Sum(s - {x}, f)
  {
    var y :| y in s && Sum(s, f) == f(y) + Sum(s - {y}, f);
    if y != x {
      SumPick(s - {y}, f, x);
      SumPick(s - {x}, f, y);
      assert s - {y} - {x} == s - {x} - {y};
    }
  }

  lemma {:induction false} SumLess<T>(s: set<T>, f: T -> nat, f': T -> nat)
    requires forall x :: x in s ==> f'(x) <= f(x)
    ensures Sum(s, f') <= Sum(s, f)
    ensures (exists x :: x in s && f'(x) < f(x)) ==> Sum(s, f') < Sum(s, f)
  {
    if s != {} {
      var y :| y in s && Sum(s, f) == f(y) + Sum(s - {y}, f);
      SumPick(s, f', y);
      SumLess(s - {y}, f, f');
      if x :| x in s && f'(x) < f(x) {
        assert x == y || x in s - {y};
      }
    }
  }

  /******* The distance from the policy *******/

  ghost function MissingIn(s: State, k: nat, p: Policy): string -> nat {
    g => Missing(s, k, p, g)
  }

  /** Replicas to remove plus replicas to add, for one shard. */
  ghost function Distance(s: State, k: nat, p: Policy): nat {
    |Undesired(s, k, p)| + Sum(p.desired.Keys, MissingIn(s, k, p))
  }

  ghost predicate HasReplica(s: State, k: nat, r: nat) {
    r in s.replicas && s.replicas[r].shardId == k
  }

  /** The shard has the same replicas on the same hosts. */
  ghost predicate SameSpots(s: State, t: State, k: nat) {
    && (forall r :: HasReplica(s, k, r) <==> HasReplica(t, k, r))
    && (forall r :: HasReplica(s, k, r) ==> t.replicas[r].hostId == s.replicas[r].hostId)
  }

  ghost predicate SameTags(s: State, t: State) {
    t.hosts.Keys == s.hosts.Keys && forall h :: TagsOn(t, h) == TagsOn(s, h)
  }

  lemma MissingSumSame(s: State, t: State, k: nat, p: Policy)
    requires forall g :: Missing(t, k, p, g) == Missing(s, k, p, g)
    ensures Sum(p.desired.Keys, MissingIn(t, k, p)) == Sum(p.desired.Keys, MissingIn(s, k, p))
  {
    var f, f' := MissingIn(s, k, p), MissingIn(t, k, p);
    assert forall g :: f(g) == f'(g);
    SumLess(p.desired.Keys, f, f');
    SumLess(p.desired.Keys, f', f);
  }

  lemma SpotsUndesired(s: State, t: State, k: nat, p: Policy)
    requires SameSpots(s, t, k) && SameTags(s, t)
    ensures Undesired(t, k, p) == Undesired(s, k, p)
  {
    assert forall r :: r in s.replicas && s.replicas[r].shardId == k <==> HasReplica(s, k, r);
    assert forall r :: r in t.replicas && t.replicas[r].shardId == k <==> HasReplica(t, k, r);
  }

  lemma SpotsFound(s: State, t: State, k: nat, p: Policy, g: string)
    requires SameSpots(s, t, k) && SameTags(s, t)
    ensures Found(t, k, p, g) == Found(s, k, p, g)
  {
    assert forall r :: r in s.replicas && s.replicas[r].shardId == k <==> HasReplica(s, k, r);
    assert forall r :: r in t.replicas && t.replicas[r].shardId == k <==> HasReplica(t, k, r);
  }

  /** Placement looks at nothing but the shard's own replicas and the hosts' tags. */
  lemma SpotsMissing(s: State, t: State, k: nat, p: Policy)
    requires SameSpots(s, t, k) && SameTags(s, t)
    ensures Undesired(t, k, p) == Undesired(s, k, p)
    ensures forall g :: Missing(t, k, p, g) == Missing(s, k, p, g)
    ensures Distance(t, k, p) == Distance(s, k, p)
  {
    SpotsUndesired(s, t, k, p);
    forall g ensures Missing(t, k, p, g) == Missing(s, k, p, g) {
      SpotsFound(s, t, k, p, g);
    }
    MissingSumSame(s, t, k, p);
  }

  lemma OccupiedSame(s: State, t: State, k: nat, p: Policy)
    requires SameSpots(s, t, k) && SameTags(s, t)
    ensures Occupied(s, k, p) <= Occupied(t, k, p)
  {
    forall h | h in Occupied(s, k, p) ensures h in Occupied(t, k, p) {
      var r :| r in s.replicas && s.replicas[r].shardId == k && s.replicas[r].hostId == h && Belongs(p, TagsOn(s, h));
      assert HasReplica(s, k, r);
      assert HasReplica(t, k, r);
    }
  }

  lemma SpotsEligible(s: State, t: State, k: nat, p: Policy, g: string)
    requires SameSpots(s, t, k) && SameTags(s, t)
    ensures Eligible(t, k, p, g) == Eligible(s, k, p, g)
  {
    assert forall r :: r in s.replicas && s.replicas[r].shardId == k <==> HasReplica(s, k, r);
    assert forall r :: r in t.replicas && t.replicas[r].shardId == k <==> HasReplica(t, k, r);
    OccupiedSame(s, t, k, p);
    OccupiedSame(t, s, k, p);
    assert Found(t, k, p, g) == Found(s, k, p, g);
    assert VaryTags(t, k, p, g) == VaryTags(s, k, p, g);
    assert Candidates(t, k, p, g) == Candidates(s, k, p, g);
    assert Blocked(t, k, p, g) == Blocked(s, k, p, g);
  }

  lemma SpotsSettled(s: State, t: State, k: nat, p: Policy)
    requires SameSpots(s, t, k) && SameTags(s, t)
    ensures Settled(t, k, p) <==> Settled(s, k, p)
  {
    SpotsMissing(s, t, k, p);
    forall g ensures Eligible(t, k, p, g) == Eligible(s, k, p, g) {
      SpotsEligible(s, t, k, p, g);
    }
  }

  /** Nothing left to do: no misfit, and under a plain vary key no host for a missing replica. */
  ghost predicate Done(s: State, k: nat, p: Policy) {
    Undesired(s, k, p) == {} && (PlainVary(p) ==> Settled(s, k, p))
  }

  lemma SpotsDone(s: State, t: State, k: nat, p: Policy)
    requires SameSpots(s, t, k) && SameTags(s, t)
    ensures Done(t, k, p) <==> Done(s, k, p)
  {
    SpotsMissing(s, t, k, p);
    SpotsSettled(s, t, k, p);
  }

  lemma MissingAdds(s: State, t: State, k: nat, p: Policy, r: nat, host: string, g: string)
    requires Adds(s, t, k, r, host)
    ensures Missing(t, k, p, g)
            == if InGroup(p, TagsOn(s, host), g) && Missing(s, k, p, g) > 0
               then Missing(s, k, p, g) - 1 else Missing(s, k, p, g)
  {
    FoundAdds(s, t, k, p, r, host, g);
  }

  /** A replica on a host that fits never takes the shard further from its policy, and brings it
      closer if a group it belongs to was short. */
  lemma CreateHelps(s: State, t: State, k: nat, r: nat, host: string, p: Policy)
    requires Adds(s, t, k, r, host) && Belongs(p, TagsOn(s, host))
    ensures Distance(t, k, p) <= Distance(s, k, p)
    ensures (exists g :: g in p.desired && InGroup(p, TagsOn(s, host), g) && Missing(s, k, p, g) > 0) ==>
              Distance(t, k, p) < Distance(s, k, p)
  {
    UndesiredAdds(s, t, k, p, r, host);
    var f, f' := MissingIn(s, k, p), MissingIn(t, k, p);
    forall g ensures f'(g) == if InGroup(p, TagsOn(s, host), g) && f(g) > 0 then f(g) - 1 else f(g) {
      MissingAdds(s, t, k, p, r, host, g);
    }
    SumLess(p.desired.Keys, f, f');
  }

  /** Removing a misfit brings the shard one step closer. */
  lemma DeleteHelps(s: State, t: State, k: nat, r: nat, host: string, p: Policy)
    requires Adds(t, s, k, r, host) && !Belongs(p, TagsOn(t, host))
    ensures Distance(t, k, p) + 1 == Distance(s, k, p)
  {
    UndesiredAdds(t, s, k, p, r, host);
    forall g ensures Missing(t, k, p, g) == Missing(s, k, p, g) {
      FoundAdds(t, s, k, p, r, host, g);
    }
    MissingSumSame(s, t, k, p);
  }

  /** A create in a short group counts exactly when the host carries the vary key. On a host without
      it the new replica fits no group and only becomes the next misfit, to be created and deleted
      over and over. */
  lemma CreateCountsExactly(s: State, t: State, k: nat, r: nat, host: string, p: Policy, g: string)
    requires Adds(s, t, k, r, host)
    requires g in p.desired && MatchFilter(TagsOn(s, host), FilterOf(p, g)) && Missing(s, k, p, g) > 0
    ensures Distance(t, k, p) < Distance(s, k, p) <==> (p.vary.Some? ==> p.vary.value in TagsOn(s, host))
    ensures !(p.vary.Some? ==> p.vary.value in TagsOn(s, host)) ==>
              r in Undesired(t, k, p) && Distance(t, k, p) == Distance(s, k, p) + 1
  {
    if p.vary.Some? ==> p.vary.value in TagsOn(s, host) {
      assert InGroup(p, TagsOn(s, host), g);
      CreateHelps(s, t, k, r, host, p);
    } else {
      UndesiredAdds(s, t, k, p, r, host);
      forall x ensures Missing(t, k, p, x) == Missing(s, k, p, x) {
        FoundAdds(s, t, k, p, r, host, x);
      }
      MissingSumSame(s, t, k, p);
    }
  }

  /******* Proposals *******/

  const ERROR_TAG := "zongzi:controller:error"

  function NewReplica(host: string, k: nat, isNonVoting: bool): Replica {
    Replica(0, 0, 0, "new", NilTags, host, isNonVoting, false, k)
  }

  function CommandOf(op: Op): Command {
    match op
    case Create(host, k, isNonVoting) => ReplicaPost(NewReplica(host, k, isNonVoting))
    case Delete(r) => ReplicaDel(r)
  }

  function Committed(step: Step, index: nat): Step {
    match step
    case Crash => Crash
    case Next(s, result) => Next(s.(index := index), result)
  }

  /** The registry after the operation is committed as the next log entry. */
  function Proposed(s: State, op: Op): Step {
    match op
    case Create(host, k, isNonVoting) =>
      Committed(ApplyReplicaPost(s, NewReplica(host, k, isNonVoting), s.index + 1), s.index + 1)
    case Delete(r) => Committed(ApplyReplicaDel(s, r, s.index + 1), s.index + 1)
  }

  /** Store the error of a failed pass in the shard's tags, or remove the last one. */
  function NoteCommand(k: nat, error: Option<string>): Command {
    match error
    case Some(text) => ShardTags(TagsSet, k, Tags(map[ERROR_TAG := text]))
    case None => ShardTags(TagsRemove, k, Tags(map[ERROR_TAG := ""]))
  }

  function Noted(s: State, k: nat, error: Option<string>): Step {
    var cmd := NoteCommand(k, error);
    Committed(ApplyShardTags(s, cmd.op, k, cmd.tags, s.index + 1), s.index + 1)
  }

  lemma ProposedIsApplied(s: State, op: Op)
    ensures Proposed(s, op) == Apply(s, Entry(s.index + 1, CommandOf(op)))
  {
  }

  lemma NotedIsApplied(s: State, k: nat, error: Option<string>)
    ensures Noted(s, k, error) == Apply(s, Entry(s.index + 1, NoteCommand(k, error)))
  {
  }

  lemma ProposedInv(s: State, op: Op)
    requires Inv(s) && s.index + 1 < U64_LIMIT && Proposed(s, op).Next?
    ensures Inv(Proposed(s, op).state)
  {
    ProposedIsApplied(s, op);
    StepInv(s, Entry(s.index + 1, CommandOf(op)));
  }

  lemma NotedInv(s: State, k: nat, error: Option<string>)
    requires Inv(s) && s.index + 1 < U64_LIMIT && Noted(s, k, error).Next?
    ensures Inv(Noted(s, k, error).state)
  {
    NotedIsApplied(s, k, error);
    StepInv(s, Entry(s.index + 1, NoteCommand(k, error)));
  }

  /** Hosts, their tags and the shards' placement tags are untouched. */
  ghost predicate Keeps(s: State, t: State) {
    && t.hosts.Keys == s.hosts.Keys
    && (forall h :: h in s.hosts ==> t.hosts[h].tags == s.hosts[h].tags)
    && t.shards.Keys == s.shards.Keys
    && (forall k :: k in s.shards ==>
          && t.shards[k].tags.Tags? == s.shards[k].tags.Tags?
          && t.shards[k].tags.Entries() - {ERROR_TAG} == s.shards[k].tags.Entries() - {ERROR_TAG})
    && (forall k :: k in s.shards ==> t.shards[k].updated >= s.shards[k].updated)
  }

  lemma KeepsTrans(s: State, t: State, u: State)
    requires Keeps(s, t) && Keeps(t, u)
    ensures Keeps(s, u)
  {
  }

  /** No shard but `k` is stamped. */
  ghost predicate Unstamped(s: State, t: State, k: nat) {
    forall j :: j in s.shards && j in t.shards && j != k ==> t.shards[j].updated == s.shards[j].updated
  }

  /** Rows differ in their update stamps at most, and among shards only that of `k`. */
  ghost predicate Stamps(s: State, t: State, k: nat) {
    && t.hosts.Keys == s.hosts.Keys
    && (forall h :: h in s.hosts ==> t.hosts[h].tags == s.hosts[h].tags)
    && t.shards.Keys == s.shards.Keys
    && (forall j :: j in s.shards ==> t.shards[j].tags == s.shards[j].tags)
    && (forall j :: j in s.shards ==> t.shards[j].updated >= s.shards[j].updated)
    && Unstamped(s, t, k)
  }

  lemma StampsKeep(s: State, t: State, k: nat)
    requires Stamps(s, t, k)
    ensures Keeps(s, t) && SameTags(s, t) && Unstamped(s, t, k)
  {
  }

  /** Replicas that stay keep their rows. */
  ghost predicate SameRows(s: State, t: State) {
    forall r :: r in s.replicas && r in t.replicas ==> t.replicas[r] == s.replicas[r]
  }

  lemma CreateEffect(s: State, host: string, k: nat, isNonVoting: bool)
    requires Inv(s) && host in s.hosts && s.index + 1 < U64_LIMIT
    ensures var step := Proposed(s, Create(host, k, isNonVoting));
            && step.Next?
            && step.state.index == s.index + 1
            && Stamps(s, step.state, k)
            && (k in s.shards ==> step.state.shards[k].updated == s.index + 1)
            && s.replicaCounter + 1 !in s.replicas
            && s.replicaCounter + 1 in step.state.replicas
            && step.state.replicas == s.replicas[s.replicaCounter + 1 := step.state.replicas[s.replicaCounter + 1]]
            && step.state.replicaCounter == s.replicaCounter + 1
            && step.state.replicas[s.replicaCounter + 1].shardId == k
            && step.state.replicas[s.replicaCounter + 1].hostId == host
            && step.state.replicas[s.replicaCounter + 1].isNonVoting == isNonVoting
  {
  }

  lemma CommitCreate(s: State, host: string, k: nat, isNonVoting: bool)
    requires Inv(s) && host in s.hosts && s.index + 1 < U64_LIMIT
    ensures var step := Proposed(s, Create(host, k, isNonVoting));
            && step.Next?
            && Inv(step.state) && step.state.index == s.index + 1
            && Adds(s, step.state, k, s.replicaCounter + 1, host)
            && step.state.replicaCounter == s.replicaCounter + 1
            && step.state.replicas[s.replicaCounter + 1].isNonVoting == isNonVoting
            && SameRows(s, step.state)
            && Keeps(s, step.state) && Unstamped(s, step.state, k)
            && (k in s.shards ==> step.state.shards[k].updated == s.index + 1)
  {
    CreateEffect(s, host, k, isNonVoting);
    ProposedInv(s, Create(host, k, isNonVoting));
    StampsKeep(s, Proposed(s, Create(host, k, isNonVoting)).state, k);
  }

  lemma DeleteEffect(s: State, r: nat)
    requires Inv(s) && r in s.replicas
    ensures var step := Proposed(s, Delete(r));
            && step.Next?
            && step.state.index == s.index + 1
            && Stamps(s, step.state, s.replicas[r].shardId)
            && (s.replicas[r].shardId in s.shards ==>
                  step.state.shards[s.replicas[r].shardId].updated == s.index + 1)
            && step.state.replicas == s.replicas - {r} && step.state.replicaCounter == s.replicaCounter
  {
  }

  lemma CommitDelete(s: State, r: nat)
    requires Inv(s) && r in s.replicas && s.index + 1 < U64_LIMIT
    ensures var step := Proposed(s, Delete(r));
            && step.Next?
            && Inv(step.state) && step.state.index == s.index + 1
            && Adds(step.state, s, s.replicas[r].shardId, r, s.replicas[r].hostId)
            && SameRows(s, step.state) && step.state.replicaCounter == s.replicaCounter
            && Keeps(s, step.state) && Unstamped(s, step.state, s.replicas[r].shardId)
            && (s.replicas[r].shardId in s.shards ==>
                  step.state.shards[s.replicas[r].shardId].updated == s.index + 1)
  {
    DeleteEffect(s, r);
    ProposedInv(s, Delete(r));
    StampsKeep(s, Proposed(s, Delete(r)).state, s.replicas[r].shardId);
  }

  lemma NoteEffect(s: State, k: nat, error: Option<string>)
    requires Inv(s) && k in s.shards && s.shards[k].tags.Tags?
    ensures var step := Noted(s, k, error);
            && step.Next?
            && step.state.index == s.index + 1
            && step.state.hosts.Keys == s.hosts.Keys
            && (forall h :: h in s.hosts ==> step.state.hosts[h].tags == s.hosts[h].tags)
            && step.state.replicas == s.replicas && step.state.replicaCounter == s.replicaCounter
            && k in step.state.shards
            && step.state.shards == s.shards[k := s.shards[k].(tags := step.state.shards[k].tags)]
            && step.state.shards[k].tags.Tags?
            && step.state.shards[k].tags.Entries() ==
               match error
               case Some(text) => s.shards[k].tags.Entries()[ERROR_TAG := text]
               case None => s.shards[k].tags.Entries() - {ERROR_TAG}
  {
    var src := NoteCommand(k, error).tags.Entries();
    assert src.Keys == {ERROR_TAG};
    assert ERROR_TAG in src;
    if error.Some? {
      assert s.shards[k].tags.entries + src == s.shards[k].tags.entries[ERROR_TAG := error.value];
    }
  }

  /** An error cannot be noted in a shard without a tag map. */
  lemma NoteCrashesExactly(s: State, k: nat, error: Option<string>)
    requires Inv(s) && k in s.shards
    ensures Noted(s, k, error).Crash? <==> error.Some? && s.shards[k].tags.NilTags?
  {
    var src := NoteCommand(k, error).tags.Entries();
    assert ERROR_TAG in src;
  }

  /** An error tag changes nothing that placement looks at, and does not stamp the shard. */
  lemma CommitNote(s: State, k: nat, error: Option<string>)
    requires Inv(s) && k in s.shards && s.shards[k].tags.Tags? && s.index + 1 < U64_LIMIT
    ensures var step := Noted(s, k, error);
            && step.Next?
            && Inv(step.state) && step.state.index == s.index + 1
            && step.state.replicas == s.replicas && step.state.replicaCounter == s.replicaCounter
            && Keeps(s, step.state)
            && (forall x :: x in s.shards ==> step.state.shards[x].updated == s.shards[x].updated)
            && (ERROR_TAG in step.state.shards[k].tags.Entries() <==> error.Some?)
  {
    NoteEffect(s, k, error);
    NotedInv(s, k, error);
    var t := Noted(s, k, error).state;
    assert t.shards[k].tags.Entries() - {ERROR_TAG} == s.shards[k].tags.Entries() - {ERROR_TAG};
  }

  /******* The policies stay put *******/

  /** Every host that a group's filter admits carries the vary key. */
  ghost predicate Carried(s: State, p: Policy) {
    p.vary.Some? ==>
      forall h, g :: h in s.hosts && g in p.desired && MatchFilter(TagsOn(s, h), FilterOf(p, g)) ==>
        p.vary.value in TagsOn(s, h)
  }

  /** `p` is the one policy that the shard's tags state. */
  ghost predicate Stated(s: State, k: nat, p: Policy) {
    && k in s.shards
    && !Clash(Decls(s.shards[k].tags.Entries()))
    && Reads(s.shards[k].tags.Entries(), s.hosts, p)
  }

  /** A policy that a pass can make progress on. */
  ghost predicate Workable(s: State, k: nat, p: Policy) {
    Stated(s, k, p) && Carried(s, p)
  }

  /** The controller's shards above the watermark; the prime shard is not its business. */
  function Above(s: State, index: nat): set<nat> {
    set k | k in s.shards && k != 0 && s.shards[k].updated > index
  }

  ghost predicate Steady(s: State, pol: nat -> Policy, index: nat) {
    forall k {:trigger Workable(s, k, pol(k))} :: k in Above(s, index) ==> Workable(s, k, pol(k))
  }

  lemma CoverSame(hosts: map<string, Host>, hosts': map<string, Host>, tag: string)
    requires hosts'.Keys == hosts.Keys && forall h :: h in hosts ==> hosts'[h].tags == hosts[h].tags
    ensures CoverHosts(hosts', tag) == CoverHosts(hosts, tag)
  {
  }

  lemma {:induction false} CoverTotalSame(hosts: map<string, Host>, hosts': map<string, Host>, tags: seq<string>)
    requires hosts'.Keys == hosts.Keys && forall h :: h in hosts ==> hosts'[h].tags == hosts[h].tags
    ensures CoverTotal(hosts', tags) == CoverTotal(hosts, tags)
  {
    if tags != [] {
      CoverTotalSame(hosts, hosts', tags[..|tags| - 1]);
      CoverSame(hosts, hosts', tags[|tags| - 1]);
    }
  }

  /** Declarations that say nothing do not matter. */
  ghost predicate SameDecls(ds: set<Decl>, ds': set<Decl>) {
    forall d: Decl :: !d.Ignored? ==> (d in ds <==> d in ds')
  }

  lemma MentionsSame(ds: set<Decl>, ds': set<Decl>, g: string)
    requires SameDecls(ds, ds') && Mentions(ds, g)
    ensures Mentions(ds', g)
  {
    var d :| d in ds && ((d.Group? && d.group == g) || (d.Cover? && g == COVER));
    assert d in ds';
  }

  lemma ClashSame(ds: set<Decl>, ds': set<Decl>)
    requires SameDecls(ds, ds')
    ensures Clash(ds') ==> Clash(ds)
  {
  }

  lemma StatesSame(ds: set<Decl>, ds': set<Decl>, hosts: map<string, Host>, hosts': map<string, Host>, p: Policy)
    requires States(ds, hosts, p) && SameDecls(ds, ds')
    requires hosts'.Keys == hosts.Keys && forall h :: h in hosts ==> hosts'[h].tags == hosts[h].tags
    ensures States(ds', hosts', p)
  {
    forall d | d in ds' && d.Cover?
      ensures var n := CoverTotal(hosts', d.tags); Has(p, COVER, if n > 0 then Some(n) else None, d.tags)
    {
      CoverTotalSame(hosts, hosts', d.tags);
      assert d in ds;
    }
    forall g | !Lacks(p, g) ensures Mentions(ds', g) {
      MentionsSame(ds, ds', g);
    }
    if p.vary.Some? {
      var d :| d in ds && d.Vary?;
      assert d in ds';
    }
  }

  lemma DeclsSame(m: map<string, string>, m': map<string, string>)
    requires m - {ERROR_TAG} == m' - {ERROR_TAG}
    ensures SameDecls(Decls(m), Decls(m'))
  {
    assert ERROR_TAG[0] != "placement:"[0];
    DeclsWithin(m, m');
    DeclsWithin(m', m);
  }

  lemma DeclsWithin(m: map<string, string>, m': map<string, string>)
    requires m - {ERROR_TAG} == m' - {ERROR_TAG}
    ensures forall d :: d in Decls(m) && !d.Ignored? ==> d in Decls(m')
  {
    assert ERROR_TAG[0] != "placement:"[0];
    forall d | d in Decls(m) && !d.Ignored? ensures d in Decls(m') {
      var key :| key in m && Declare(key, m[key]) == d;
      assert key in m - {ERROR_TAG};
      assert key in m' && m'[key] == m[key];
    }
  }

  lemma StatedKept(s: State, t: State, k: nat, p: Policy)
    requires Keeps(s, t) && Stated(s, k, p)
    ensures Stated(t, k, p)
  {
    var m, m' := s.shards[k].tags.Entries(), t.shards[k].tags.Entries();
    DeclsSame(m, m');
    StatesSame(Decls(m), Decls(m'), s.hosts, t.hosts, p);
    ClashSame(Decls(m), Decls(m'));
  }

  lemma CarriedKept(s: State, t: State, p: Policy)
    requires Keeps(s, t) && Carried(s, p)
    ensures Carried(t, p)
  {
  }

  lemma SteadyKept(s: State, t: State, pol: nat -> Policy, index: nat)
    requires Keeps(s, t) && Steady(s, pol, index) && Above(t, index) <= Above(s, index)
    ensures Steady(t, pol, index)
  {
    forall k | k in Above(t, index) ensures Workable(t, k, pol(k)) {
      assert Workable(s, k, pol(k));
      StatedKept(s, t, k, pol(k));
      CarriedKept(s, t, pol(k));
    }
  }

  /******* Whole passes *******/

  /** What a pass may propose: one misfit to delete, or hosts for missing replicas. */
  ghost predicate Plan(s: State, k: nat, p: Policy, ops: seq<Op>) {
    || (exists r :: r in Undesired(s, k, p) && ops == [Delete(r)])
    || (exists placed :: ops == Creates(k, placed) && Sound(s, k, p, placed))
  }

  /** What the controller may propose in a pass in which no proposal fails. */
  ghost predicate Passes(s: State, k: nat, p: Policy, ops: seq<Op>) {
    if Undesired(s, k, p) != {} then
      exists r :: r in Undesired(s, k, p) && (forall x :: x in Undesired(s, k, p) ==> r <= x) && ops == [Delete(r)]
    else
      exists placed :: ops == Creates(k, placed) && Sound(s, k, p, placed) && Maximal(s, k, p, placed)
  }

  ghost function CountIn(placed: seq<Placed>): string -> nat {
    g => CountOf(placed, g)
  }

  lemma {:induction false} CountsCover(placed: seq<Placed>, groups: set<string>)
    requires forall i :: 0 <= i < |placed| ==> placed[i].group in groups
    ensures |placed| <= Sum(groups, CountIn(placed))
  {
    if placed != [] {
      var rest, g := placed[..|placed| - 1], placed[|placed| - 1].group;
      CountsCover(rest, groups);
      SumPick(groups, CountIn(placed), g);
      SumPick(groups, CountIn(rest), g);
      SumLess(groups - {g}, CountIn(placed), CountIn(rest));
    }
  }

  lemma PlanShort(s: State, k: nat, p: Policy, ops: seq<Op>)
    requires Plan(s, k, p, ops)
    ensures |ops| <= Distance(s, k, p)
  {
    if r :| r in Undesired(s, k, p) && ops == [Delete(r)] {
    } else {
      var placed: seq<Placed> :| ops == Creates(k, placed) && Sound(s, k, p, placed);
      CountsCover(placed, p.desired.Keys);
      SumLess(p.desired.Keys, MissingIn(s, k, p), CountIn(placed));
    }
  }

  /** The host is one for some group: for the members, if the replica votes, and for another group, if it
      does not. */
  ghost predicate Meant(p: Policy, tags: map<string, string>, isNonVoting: bool) {
    exists g :: InGroup(p, tags, g) && (isNonVoting <==> g != MEMBER)
  }

  /** A create of the plan goes to a stored host that fits; the first one fills a gap. */
  ghost predicate Helpful(s: State, k: nat, p: Policy, op: Op, first: bool) {
    && op.Create? && op.shard == k && op.host in s.hosts && Meant(p, TagsOn(s, op.host), op.isNonVoting)
    && (first ==> exists g :: g in p.desired && InGroup(p, TagsOn(s, op.host), g) && Missing(s, k, p, g) > 0)
  }

  lemma PlanCreates(s: State, k: nat, p: Policy, ops: seq<Op>, i: nat)
    requires Plan(s, k, p, ops) && Carried(s, p) && i < |ops| && ops[i].Create?
    ensures Helpful(s, k, p, ops[i], i == 0)
  {
    var placed: seq<Placed> :| ops == Creates(k, placed) && Sound(s, k, p, placed);
    var g := placed[i].group;
    assert InGroup(p, TagsOn(s, placed[i].host), g);
    CountAt(placed, i);
  }

  lemma PlanDeletes(s: State, k: nat, p: Policy, ops: seq<Op>, i: nat)
    requires Plan(s, k, p, ops) && i < |ops| && ops[i].Delete?
    ensures i == 0 && |ops| == 1 && ops[0].replica in Undesired(s, k, p)
  {
  }

  /** On a settled shard the controller's pass has nothing to propose. */
  lemma SettledFixpoint(s: State, k: nat, p: Policy, placed: seq<Placed>)
    requires Settled(s, k, p) && Sound(s, k, p, placed)
    requires forall i :: 0 <= i < |placed| ==> placed[i].host in Eligible(s, k, p, placed[i].group)
    ensures Undesired(s, k, p) == {} && placed == []
  {
    if placed != [] {
      CountAt(placed, 0);
    }
  }

  /** Between `s` and `t` only replicas of shard `k` came or went. */
  ghost predicate Only(s: State, t: State, k: nat) {
    && Keeps(s, t) && Unstamped(s, t, k)
    && (forall j :: j != k ==> SameSpots(s, t, j))
  }

  lemma OnlyTrans(s: State, t: State, u: State, k: nat)
    requires Only(s, t, k) && Only(t, u, k)
    ensures Only(s, u, k)
  {
    KeepsTrans(s, t, u);
    forall j | j != k ensures SameSpots(s, u, j) {
      assert SameSpots(s, t, j) && SameSpots(t, u, j);
    }
  }

  lemma AddsOnly(s: State, t: State, k: nat, r: nat, host: string)
    requires (Adds(s, t, k, r, host) || Adds(t, s, k, r, host)) && Keeps(s, t) && Unstamped(s, t, k)
    ensures Only(s, t, k)
  {
  }

  lemma KeepsTags(s: State, t: State)
    requires Keeps(s, t)
    ensures SameTags(s, t)
  {
  }

  /** A replica of the shard that the policy asks for, with the vote that goes with its group. */
  ghost predicate Seated(t: State, r: nat, k: nat, p: Policy) {
    && r in t.replicas && t.replicas[r].shardId == k
    && Meant(p, TagsOn(t, t.replicas[r].hostId), t.replicas[r].isNonVoting)
  }

  ghost predicate Misfit(s: State, r: nat, k: nat, p: Policy) {
    r in s.replicas && s.replicas[r].shardId == k && !Belongs(p, TagsOn(s, s.replicas[r].hostId))
  }

  /** From `s` to `t` no replica changed, those that came are seated under the policies of the given shards,
      and those that went fitted nowhere. */
  ghost predicate Revised(s: State, t: State, shards: set<nat>, pol: nat -> Policy) {
    && SameTags(s, t) && SameRows(s, t) && s.replicaCounter <= t.replicaCounter
    && (forall r :: r in t.replicas && r !in s.replicas ==>
          && r > s.replicaCounter && t.replicas[r].shardId in shards
          && Seated(t, r, t.replicas[r].shardId, pol(t.replicas[r].shardId)))
    && (forall r :: r in s.replicas && r !in t.replicas ==>
          s.replicas[r].shardId in shards && Misfit(s, r, s.replicas[r].shardId, pol(s.replicas[r].shardId)))
  }

  lemma RevisedTrans(s: State, t: State, u: State, shards: set<nat>, pol: nat -> Policy)
    requires Inv(s) && Revised(s, t, shards, pol) && Revised(t, u, shards, pol)
    ensures Revised(s, u, shards, pol)
  {
  }

  ghost function Just(p: Policy): nat -> Policy {
    _ => p
  }

  lemma RevisedMore(s: State, t: State, k: nat, shards: set<nat>, pol: nat -> Policy)
    requires Revised(s, t, {k}, Just(pol(k))) && k in shards
    ensures Revised(s, t, shards, pol)
  {
  }

  /** One create of a plan, committed after `i` others. */
  lemma CreateStep(s: State, t: State, k: nat, p: Policy, op: Op, first: bool)
    requires Inv(t) && t.index + 1 < U64_LIMIT && Keeps(s, t) && Helpful(s, k, p, op, first)
    requires first ==> SameSpots(s, t, k)
    ensures var step := Proposed(t, op);
            && step.Next? && Inv(step.state) && step.state.index == t.index + 1
            && Only(t, step.state, k) && Revised(t, step.state, {k}, Just(p))
            && (k in t.shards ==> step.state.shards[k].updated == t.index + 1)
            && Distance(step.state, k, p) <= Distance(t, k, p)
            && (first ==> Distance(step.state, k, p) < Distance(t, k, p))
  {
    CommitCreate(t, op.host, k, op.isNonVoting);
    var u := Proposed(t, op).state;
    KeepsTags(s, t);
    if first {
      SpotsMissing(s, t, k, p);
    }
    AddsOnly(t, u, k, t.replicaCounter + 1, op.host);
    MeantBelongs(p, TagsOn(s, op.host), op.isNonVoting);
    CreateHelps(t, u, k, t.replicaCounter + 1, op.host, p);
    KeepsTags(t, u);
    assert Seated(u, t.replicaCounter + 1, k, p);
  }

  lemma MeantBelongs(p: Policy, tags: map<string, string>, isNonVoting: bool)
    requires Meant(p, tags, isNonVoting)
    ensures Belongs(p, tags)
  {
    var g :| InGroup(p, tags, g) && (isNonVoting <==> g != MEMBER);
  }

  lemma DeleteStep(t: State, k: nat, p: Policy, r: nat)
    requires Inv(t) && t.index + 1 < U64_LIMIT && r in Undesired(t, k, p)
    ensures var step := Proposed(t, Delete(r));
            && step.Next? && Inv(step.state) && step.state.index == t.index + 1
            && Only(t, step.state, k) && Revised(t, step.state, {k}, Just(p))
            && (k in t.shards ==> step.state.shards[k].updated == t.index + 1)
            && Distance(step.state, k, p) < Distance(t, k, p)
  {
    CommitDelete(t, r);
    var u := Proposed(t, Delete(r)).state;
    AddsOnly(t, u, k, r, t.replicas[r].hostId);
    DeleteHelps(t, u, k, r, t.replicas[r].hostId, p);
    KeepsTags(t, u);
    assert Misfit(t, r, k, p);
  }
}
