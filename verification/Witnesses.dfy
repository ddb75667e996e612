/**
 Short runs in which something that one might expect does not hold.
 */
module Witnesses {
  import opened Numerals
  import opened Registry
  import opened RegistryRuns
  import opened Watermarks
  import opened Snapshot
  import opened TagText
  import opened Placement
  import opened PlacementPolicy
  import opened Convergence
  import opened Livelock

  /******* Growing a run *******/

  lemma {:induction false} SincePrefix(es: seq<Event>, event: Event, n: nat, i: nat)
    requires n <= i <= |es|
    ensures Since(es + [event], n, i) == Since(es, n, i)
    decreases i
  {
    if n < i {
      SincePrefix(es, event, n, i - 1);
    }
  }

  lemma StepPrefix(es: seq<Event>, ss: seq<State>, event: Event, t: State, i: nat)
    requires |ss| == |es| + 1 && i < |es| && StepAt(es, ss, i)
    ensures StepAt(es + [event], ss + [t], i)
  {
    if es[i].Restart? {
      SincePrefix(es, event, es[i].from, i);
    }
  }

  lemma RunEvent(es: seq<Event>, ss: seq<State>, event: Event, t: State)
    requires IsRun(es, ss) && StepAt(es + [event], ss + [t], |es|)
    requires event.Commit? ==> 0 < event.entry.index < U64_LIMIT
    requires event.Commit? ==> forall i :: 0 <= i < |es| && es[i].Commit? ==> es[i].entry.index < event.entry.index
    ensures IsRun(es + [event], ss + [t])
  {
    forall i | 0 <= i < |es| + 1 ensures StepAt(es + [event], ss + [t], i) {
      if i < |es| {
        assert StepAt(es, ss, i);
        StepPrefix(es, ss, event, t, i);
      }
    }
  }

  /** One more entry. */
  lemma RunCommit(es: seq<Event>, ss: seq<State>, e: Entry, t: State)
    requires IsRun(es, ss) && Apply(ss[|es|], e).Next? && Apply(ss[|es|], e).state == t
    requires 0 < e.index < U64_LIMIT
    requires forall i :: 0 <= i < |es| && es[i].Commit? ==> es[i].entry.index < e.index
    ensures IsRun(es + [Commit(e)], ss + [t])
  {
    RunEvent(es, ss, Commit(e), t);
  }

  /** A restart from the snapshot before the last entry. */
  lemma RunRestart(es: seq<Event>, ss: seq<State>, t: State)
    requires IsRun(es, ss) && es != [] && es[|es| - 1].Commit?
    requires Apply(Recovered(ss[|es| - 1]), es[|es| - 1].entry).Next?
    requires Apply(Recovered(ss[|es| - 1]), es[|es| - 1].entry).state == t
    ensures IsRun(es + [Restart(|es| - 1)], ss + [t])
  {
    var n, e := |es| - 1, es[|es| - 1].entry;
    var es' := es + [Restart(n)];
    assert Since(es', n, n + 1) == [] + [e] == [e];
    ReplaySnoc(Recovered(ss[n]), [], e);
    RunEvent(es, ss, Restart(n), t);
  }

  lemma RunStart()
    ensures IsRun([], [EMPTY])
  {
  }

  /******* A name lost from the index *******/

  /** A shard without tags, as in a command. */
  function Named(id: nat, name: string): Shard {
    Shard(id, 0, 0, "", NilTags, 0, name, 0, "")
  }

  function Row(id: nat, created: nat, updated: nat, name: string): Shard {
    Named(id, name).(created := created, updated := updated)
  }

  function Shards(shards: map<nat, Shard>, names: set<string>, index: nat, counter: nat): State {
    EMPTY.(shards := shards, names := names, index := index, shardCounter := counter)
  }

  lemma PostNamed(s: State, name: string, index: nat)
    requires name != "" && name !in s.names && s.shardCounter + 1 < U64_LIMIT
    ensures var id := s.shardCounter + 1;
            Apply(s, Entry(index, ShardPost(Named(0, name))))
            == Next(PutShard(s, Row(id, index, index, name)).(shardCounter := id, index := index), Result(id, ""))
  {
  }

  lemma RefuseNamed(s: State, name: string, index: nat)
    requires name != "" && name in s.names
    ensures var step := Apply(s, Entry(index, ShardPost(Named(0, name))));
            step.Next? && step.state == s.(index := index)
  {
  }

  lemma PutNamed(s: State, id: nat, name: string, index: nat)
    requires id in s.shards && s.shards[id].tags == NilTags && s.replicas == map[]
    ensures var step := Apply(s, Entry(index, ShardPut(Named(id, name))));
            && step.Next?
            && step.state == PutShard(s, Row(id, s.shards[id].created, index, name)).(index := index)
  {
    assert OfShard(s.replicas, id) == {};
    assert HostsOf(s.replicas, {}) == {};
    EmptyKeys(s.shards[id].tags.Entries());
    var t := PutShard(s, Row(id, s.shards[id].created, index, name));
    assert TouchHosts(t, {}, index) == t;
  }

  /** Shard 2 takes shard 1's name and gives it up again, and with it goes the index entry of shard 1. */
  lemma NameLost() returns (es: seq<Event>, ss: seq<State>)
    ensures |es| == 4 && IsRun(es, ss) && !NamesComplete(ss[4])
    ensures forall i :: 0 <= i < 4 ==> es[i].Commit? && es[i].entry.index == i + 1
    ensures ss[4] == Shards(map[1 := Row(1, 1, 1, "x"), 2 := Row(2, 2, 4, "y")], {"y"}, 4, 2)
  {
    es, ss := TwoNames();
    var s3 := Shards(map[1 := Row(1, 1, 1, "x"), 2 := Row(2, 2, 3, "x")], {"x"}, 3, 2);
    var s4 := Shards(map[1 := Row(1, 1, 1, "x"), 2 := Row(2, 2, 4, "y")], {"y"}, 4, 2);
    PutNamed(ss[2], 2, "x", 3);
    RunCommit(es, ss, Entry(3, ShardPut(Named(2, "x"))), s3);
    es, ss := es + [Commit(Entry(3, ShardPut(Named(2, "x"))))], ss + [s3];
    PutNamed(s3, 2, "y", 4);
    RunCommit(es, ss, Entry(4, ShardPut(Named(2, "y"))), s4);
    es, ss := es + [Commit(Entry(4, ShardPut(Named(2, "y"))))], ss + [s4];
    assert s4.shards[1].name == "x";
    assert "x" in NamesOf(s4.shards);
  }

  lemma TwoNames() returns (es: seq<Event>, ss: seq<State>)
    ensures |es| == 2 && IsRun(es, ss)
    ensures forall i :: 0 <= i < 2 ==> es[i].Commit? && es[i].entry.index == i + 1
    ensures ss[2] == Shards(map[1 := Row(1, 1, 1, "x"), 2 := Row(2, 2, 2, "b")], {"x", "b"}, 2, 2)
  {
    var s1 := Shards(map[1 := Row(1, 1, 1, "x")], {"x"}, 1, 1);
    var s2 := Shards(map[1 := Row(1, 1, 1, "x"), 2 := Row(2, 2, 2, "b")], {"x", "b"}, 2, 2);
    RunStart();
    PostNamed(EMPTY, "x", 1);
    RunCommit([], [EMPTY], Entry(1, ShardPost(Named(0, "x"))), s1);
    es, ss := [] + [Commit(Entry(1, ShardPost(Named(0, "x"))))], [EMPTY] + [s1];
    PostNamed(s1, "b", 2);
    RunCommit(es, ss, Entry(2, ShardPost(Named(0, "b"))), s2);
    es, ss := es + [Commit(Entry(2, ShardPost(Named(0, "b"))))], ss + [s2];
  }

  /** With the name lost, a post that reuses it is taken, and a restart from the snapshot before it loses
      that shard: its id is given out a second time. */
  lemma ShardIdReused() returns (es: seq<Event>, ss: seq<State>)
    ensures |es| == 7 && es[5] == Restart(4) && IsRun(es, ss)
    ensures es[4] == Commit(Entry(5, ShardPost(Named(0, "x")))) && ResultAt(es, ss, 4) == Result(3, "")
    ensures es[6] == Commit(Entry(6, ShardPost(Named(0, "z")))) && ResultAt(es, ss, 6) == Result(3, "")
    ensures ss[5].shardCounter == 3 && ss[6].shardCounter == 2
    ensures ss[5].shards.Keys == {1, 2, 3} && ss[6].shards.Keys == {1, 2}
  {
    es, ss := NameLost();
    var s5, s6, s7 := AfterLoss(ss[4]);
    var five, six := Entry(5, ShardPost(Named(0, "x"))), Entry(6, ShardPost(Named(0, "z")));
    RunCommit(es, ss, five, s5);
    es, ss := es + [Commit(five)], ss + [s5];
    RunRestart(es, ss, s6);
    es, ss := es + [Restart(4)], ss + [s6];
    RunCommit(es, ss, six, s7);
    es, ss := es + [Commit(six)], ss + [s7];
  }

  lemma AfterLoss(s: State) returns (live: State, restarted: State, later: State)
    requires s == Shards(map[1 := Row(1, 1, 1, "x"), 2 := Row(2, 2, 4, "y")], {"y"}, 4, 2)
    ensures Apply(s, Entry(5, ShardPost(Named(0, "x")))) == Next(live, Result(3, ""))
    ensures Apply(Recovered(s), Entry(5, ShardPost(Named(0, "x")))).Next?
    ensures Apply(Recovered(s), Entry(5, ShardPost(Named(0, "x")))).state == restarted
    ensures Apply(restarted, Entry(6, ShardPost(Named(0, "z")))) == Next(later, Result(3, ""))
    ensures live.shardCounter == 3 && live.shards.Keys == {1, 2, 3}
    ensures restarted.shardCounter == 2 && restarted.shards.Keys == {1, 2}
  {
    PostNamed(s, "x", 5);
    live := PutShard(s, Row(3, 5, 5, "x")).(shardCounter := 3, index := 5);
    RecoveredNames(s);
    RefuseNamed(Recovered(s), "x", 5);
    restarted := Recovered(s).(index := 5);
    PostNamed(restarted, "z", 6);
    later := PutShard(restarted, Row(3, 6, 6, "z")).(shardCounter := 3, index := 6);
  }

  lemma RecoveredNames(s: State)
    requires s.shards == map[1 := Row(1, 1, 1, "x"), 2 := Row(2, 2, 4, "y")]
    ensures "x" in Recovered(s).names && Recovered(s).names == {"x", "y"}
  {
    assert s.shards[1].name == "x" && s.shards[2].name == "y";
  }

  /******* Two hosts *******/

  const HOST_A := "00000000-0000-4000-8000-00000000000a"
  const HOST_B := "00000000-0000-4000-8000-00000000000b"

  lemma TwoHosts()
    ensures HOST_A != HOST_B
  {
    assert HOST_A[35] != HOST_B[35];
  }

  function Machine(id: string, tags: TagMap): Host {
    Host(id, 0, 0, "", tags, "", "", [])
  }

  function Seat(id: nat, host: string, k: nat): Replica {
    Replica(id, 0, 0, "", NilTags, host, false, false, k)
  }

  /** A log with the indexes 1, 2, 3 and so on. */
  ghost predicate Counted(es: seq<Event>) {
    |es| < 10 && forall i :: 0 <= i < |es| ==> es[i].Commit? && es[i].entry.index == i + 1
  }

  lemma RunNext(es: seq<Event>, ss: seq<State>, cmd: Command) returns (es': seq<Event>, ss': seq<State>)
    requires IsRun(es, ss) && Counted(es) && |es| < 9 && Apply(ss[|es|], Entry(|es| + 1, cmd)).Next?
    ensures IsRun(es', ss') && Counted(es') && |es'| == |es| + 1
    ensures ss'[|es'|] == Apply(ss[|es|], Entry(|es| + 1, cmd)).state
    ensures !cmd.Malformed? ==> ss'[|es'|].index == |es'|
  {
    var e := Entry(|es| + 1, cmd);
    RunCommit(es, ss, e, Apply(ss[|es|], e).state);
    es', ss' := es + [Commit(e)], ss + [Apply(ss[|es|], e).state];
  }

  lemma AddHost(s: State, host: Host, index: nat)
    requires host.id !in s.hosts && s.replicas == map[]
    ensures var step := Apply(s, Entry(index, HostPut(host)));
            && step.Next?
            && step.state.hosts == s.hosts[host.id := host.(created := index, updated := index)]
            && step.state.replicas == map[] && step.state.shards == s.shards && step.state.names == s.names
            && step.state.shardCounter == s.shardCounter && step.state.replicaCounter == s.replicaCounter
  {
    assert OnHost(s.replicas, host.id) == {};
    assert ShardsOf(s.replicas, {}) == {};
    assert TouchShards(s, {}, index).shards == s.shards;
  }

  lemma PostShard(s: State, shard: Shard, index: nat)
    requires shard.name != "" && shard.name !in s.names && s.shardCounter + 1 < U64_LIMIT
    ensures var id, step := s.shardCounter + 1, Apply(s, Entry(index, ShardPost(shard)));
            && step.Next? && step.state.shardCounter == id
            && step.state.shards == s.shards[id := shard.(id := id, created := index, updated := index)]
            && step.state.hosts == s.hosts && step.state.replicas == s.replicas
            && step.state.replicaCounter == s.replicaCounter
            && (id !in s.shards ==> step.state.names == s.names + {shard.name})
  {
  }

  lemma AddReplica(s: State, host: string, k: nat, index: nat)
    requires host in s.hosts && k in s.shards && s.replicaCounter == 0
    ensures var step := Apply(s, Entry(index, ReplicaPost(Seat(0, host, k))));
            && step.Next? && step.state.replicas.Keys == s.replicas.Keys + {1}
            && step.state.replicas[1].hostId == host && step.state.replicas[1].shardId == k
            && step.state.replicas[1].tags == NilTags
            && step.state.hosts.Keys == s.hosts.Keys && step.state.shards.Keys == s.shards.Keys
            && (forall h :: h in s.hosts ==> step.state.hosts[h].tags == s.hosts[h].tags)
            && (forall j :: j in s.shards ==> step.state.shards[j].tags == s.shards[j].tags)
  {
  }

  /** Two hosts, and a shard with the given tags. */
  ghost predicate Young(s: State, a: TagMap, b: TagMap, tags: TagMap) {
    && s.hosts.Keys == {HOST_A, HOST_B} && s.hosts[HOST_A].tags == a && s.hosts[HOST_B].tags == b
    && s.shards.Keys == {1} && s.shards[1].tags == tags
    && s.replicas == map[] && s.replicaCounter == 0 && s.shardCounter == 1 && s.names == {"x"}
    && s.index == 3 && Inv(s)
  }

  /** Three entries make such a registry. */
  lemma NewShard(a: TagMap, b: TagMap, tags: TagMap) returns (es: seq<Event>, ss: seq<State>)
    ensures IsRun(es, ss) && Counted(es) && |es| == 3 && Young(ss[3], a, b, tags)
  {
    RunStart();
    TwoHosts();
    es, ss := [], [EMPTY];
    AddHost(ss[0], Machine(HOST_A, a), 1);
    es, ss := RunNext(es, ss, HostPut(Machine(HOST_A, a)));
    AddHost(ss[1], Machine(HOST_B, b), 2);
    es, ss := RunNext(es, ss, HostPut(Machine(HOST_B, b)));
    var shard := Named(0, "x").(tags := tags);
    PostShard(ss[2], shard, 3);
    es, ss := RunNext(es, ss, ShardPost(shard));
    Reachable(es, ss, 3);
  }

  /******* A change that the watermarks miss *******/

  /** A replica of the one shard on the first host. */
  lemma OnePlaced() returns (es: seq<Event>, ss: seq<State>)
    ensures IsRun(es, ss) && Counted(es) && |es| == 5
    ensures var s := ss[5];
            && s.index == 5 && {HOST_A, HOST_B} <= s.hosts.Keys && {1, 2} <= s.shards.Keys && 1 in s.replicas
            && s.replicas[1].hostId == HOST_A && s.replicas[1].shardId == 1 && s.replicas[1].tags == NilTags
  {
    es, ss := NewShard(NilTags, NilTags, NilTags);
    PostShard(ss[3], Named(0, "y"), 4);
    es, ss := RunNext(es, ss, ShardPost(Named(0, "y")));
    AddReplica(ss[4], HOST_A, 1, 5);
    es, ss := RunNext(es, ss, ReplicaPost(Seat(0, HOST_A, 1)));
  }

  /** A put that takes the replica to the other host and the other shard is seen by neither a reader of
      its former host nor one of its former shard. */
  lemma MoveMissed() returns (es: seq<Event>, ss: seq<State>)
    ensures IsRun(es, ss) && |es| == 6 && es[5].Commit? && es[5].entry.cmd == ReplicaPut(Seat(1, HOST_B, 2))
    ensures !QuietHosts(ss[5], ss[6]) && !QuietShards(ss[5], ss[6])
  {
    es, ss := OnePlaced();
    TwoHosts();
    var e := Entry(6, ReplicaPut(Seat(1, HOST_B, 2)));
    var s := ss[5];
    Reachable(es, ss, 5);
    CrashExactly(s, e);
    HostChangeMissedExactly(s, e);
    ShardChangeMissedExactly(s, e);
    RunCommit(es, ss, e, Apply(s, e).state);
    es, ss := es + [Commit(e)], ss + [Apply(s, e).state];
  }

  /******* Panics *******/

  /** From the start, a single entry can take every process down: a replica for a host that is not
      there. So can a tag for a host that was put without tags. */
  lemma Panicking() returns (es: seq<Event>, ss: seq<State>)
    ensures Apply(EMPTY, Entry(1, ReplicaPost(Seat(0, HOST_A, 1)))).Crash?
    ensures IsRun(es, ss) && |es| == 1
    ensures Apply(ss[1], Entry(2, HostTags(TagsSet, HOST_A, Tags(map["k" := "v"])))).Crash?
  {
    RunStart();
    Reachable([], [EMPTY], 0);
    CrashExactly(EMPTY, Entry(1, ReplicaPost(Seat(0, HOST_A, 1))));
    es, ss := [], [EMPTY];
    AddHost(ss[0], Machine(HOST_A, NilTags), 1);
    es, ss := RunNext(es, ss, HostPut(Machine(HOST_A, NilTags)));
    Reachable(es, ss, 1);
    assert "k" in Tags(map["k" := "v"]).Entries();
    CrashExactly(ss[1], Entry(2, HostTags(TagsSet, HOST_A, Tags(map["k" := "v"]))));
  }

  /******* A policy of members *******/

  /** The tags of a shard that asks for `n` members and varies them by zone. */
  function Wishes(n: int): TagMap {
    Tags(map["placement:member" := PrintGroup(n, []), "placement:vary" := "zone"])
  }

  function MembersByZone(n: int): Policy {
    Policy(map[MEMBER := n], map[MEMBER := [""]], Some("zone"))
  }

  function InZone(): TagMap {
    Tags(map["zone" := "z"])
  }

  lemma WishesDeclare(n: int)
    requires IsInt64(n)
    ensures Declare("placement:member", PrintGroup(n, [])) == Group(MEMBER, GroupSpec(n, [""]))
    ensures Declare("placement:vary", "zone") == Vary("zone")
    ensures "placement:member" != "placement:vary"
  {
    assert "placement:member"[10..] == "member" && "placement:vary"[10..] == "vary";
    assert "placement:member"[10] != "placement:vary"[10];
    AtoiItoa(n);
    assert PrintGroup(n, []) == Itoa(n) + [';'] + "";
    SplitHead(Itoa(n), "", ';');
    assert Split("", ';') == [""];
  }

  /** The tags state the policy. */
  lemma WishesStated(s: State, n: int)
    requires IsInt64(n) && 1 in s.shards && s.shards[1].tags == Wishes(n)
    ensures Stated(s, 1, MembersByZone(n)) && PlainVary(MembersByZone(n))
  {
    WishesDeclare(n);
    var m, ds := Wishes(n).Entries(), Decls(Wishes(n).Entries());
    var members, vary := Group(MEMBER, GroupSpec(n, [""])), Vary("zone");
    forall d ensures d in ds <==> d == members || d == vary {
      if d == members {
        assert "placement:member" in m;
      }
      if d == vary {
        assert "placement:vary" in m;
      }
    }
    assert Mentions(ds, MEMBER) by {
      assert members in ds;
    }
    assert vary in ds;
  }

  /** What a pass over the new shard has to work with. */
  lemma YoungPlacement(s: State, a: TagMap, b: TagMap, n: int)
    requires Young(s, a, b, Wishes(n)) && 0 < n <= INT_MAX
    ensures var p := MembersByZone(n);
            && Undesired(s, 1, p) == {} && Missing(s, 1, p, MEMBER) == n && Found(s, 1, p, MEMBER) == {}
            && Eligible(s, 1, p, MEMBER) == {HOST_A, HOST_B}
            && TagsOn(s, HOST_A) == a.Entries() && TagsOn(s, HOST_B) == b.Entries()
  {
    var p := MembersByZone(n);
    assert Found(s, 1, p, MEMBER) == {};
    assert VaryTags(s, 1, p, MEMBER) == {};
    assert Occupied(s, 1, p) == {};
    assert Candidates(s, 1, p, MEMBER) == {HOST_A, HOST_B};
    assert !Blocked(s, 1, p, MEMBER);
  }

  /******* Members that share a zone *******/

  lemma OnlyMembers(s: State, n: int, placed: seq<Placed>)
    requires Sound(s, 1, MembersByZone(n), placed) && Maximal(s, 1, MembersByZone(n), placed)
    ensures forall i :: 0 <= i < |placed| ==>
              placed[i].group == MEMBER && placed[i].host in Eligible(s, 1, MembersByZone(n), MEMBER)
    ensures |placed| == Missing(s, 1, MembersByZone(n), MEMBER)
            || Eligible(s, 1, MembersByZone(n), MEMBER) <= PlacedHosts(placed)
  {
    var p := MembersByZone(n);
    forall i | 0 <= i < |placed| ensures placed[i].group == MEMBER && placed[i].host in Eligible(s, 1, p, MEMBER) {
      assert placed[i].group in p.desired;
    }
    CountAll(placed, MEMBER);
    assert MEMBER in p.desired;
  }

  /** Both hosts are in one zone and two members are wanted: the first pass over the new shard, whichever
      it is, puts both members into that zone. */
  lemma MembersTogether() returns (es: seq<Event>, ss: seq<State>)
    ensures IsRun(es, ss) && |es| == 3 && Stated(ss[3], 1, MembersByZone(2))
    ensures forall placed :: Sound(ss[3], 1, MembersByZone(2), placed) && Maximal(ss[3], 1, MembersByZone(2), placed) ==>
              |placed| == 2 && Crowds(ss[3], 1, MembersByZone(2), placed)
  {
    es, ss := NewShard(InZone(), InZone(), Wishes(2));
    WishesStated(ss[3], 2);
    forall placed | Sound(ss[3], 1, MembersByZone(2), placed) && Maximal(ss[3], 1, MembersByZone(2), placed)
      ensures |placed| == 2 && Crowds(ss[3], 1, MembersByZone(2), placed)
    {
      Together(ss[3], placed);
    }
  }

  lemma Together(s: State, placed: seq<Placed>)
    requires Young(s, InZone(), InZone(), Wishes(2))
    requires Sound(s, 1, MembersByZone(2), placed) && Maximal(s, 1, MembersByZone(2), placed)
    ensures |placed| == 2 && Crowds(s, 1, MembersByZone(2), placed)
  {
    var p := MembersByZone(2);
    TwoHosts();
    YoungPlacement(s, InZone(), InZone(), 2);
    OnlyMembers(s, 2, placed);
    CountAll(placed, MEMBER);
    assert CountOf(placed, MEMBER) <= 2;
    assert |placed| == 2 || (HOST_A in PlacedHosts(placed) && HOST_B in PlacedHosts(placed));
    assert placed[0].host in {HOST_A, HOST_B} && placed[1].host in {HOST_A, HOST_B};
    assert SameValue(s, p, placed[0].host, placed[1].host);
  }

  /** One member is there, in the zone, and another one is wanted. */
  ghost predicate Halfway(s: State) {
    && s.hosts.Keys == {HOST_A, HOST_B} && s.hosts[HOST_A].tags == InZone() && s.hosts[HOST_B].tags == InZone()
    && s.shards.Keys == {1} && s.shards[1].tags == Wishes(2)
    && s.replicas.Keys == {1} && s.replicas[1].hostId == HOST_A && s.replicas[1].shardId == 1
  }

  lemma HalfwayPlacement(s: State)
    requires Halfway(s)
    ensures var p := MembersByZone(2);
            && Found(s, 1, p, MEMBER) == {1} && Missing(s, 1, p, MEMBER) == 1
            && Eligible(s, 1, p, MEMBER) == {HOST_B} && Repeats(s, 1, p, HOST_B)
  {
    var p, tags := MembersByZone(2), InZone().Entries();
    TwoHosts();
    assert TagsOn(s, HOST_A) == tags && TagsOn(s, HOST_B) == tags;
    assert InGroup(p, tags, MEMBER) && Belongs(p, tags);
    assert Found(s, 1, p, MEMBER) == {1};
    assert s.replicas[1].hostId in Occupied(s, 1, p);
    assert Occupied(s, 1, p) == {HOST_A};
    assert Candidates(s, 1, p, MEMBER) == {HOST_B};
    var t := VaryTag("zone", tags);
    assert t in VaryTags(s, 1, p, MEMBER) && VaryTags(s, 1, p, MEMBER) == {t};
    assert !Blocked(s, 1, p, MEMBER) by {
      assert VaryTag("zone", TagsOn(s, HOST_B)) == t;
    }
    assert SameValue(s, p, HOST_B, s.replicas[1].hostId);
  }

  /** A member is already there: every pass puts the second one into its zone. */
  lemma MemberRepeated() returns (es: seq<Event>, ss: seq<State>)
    ensures IsRun(es, ss) && |es| == 4 && Stated(ss[4], 1, MembersByZone(2))
    ensures forall placed :: Sound(ss[4], 1, MembersByZone(2), placed) && Maximal(ss[4], 1, MembersByZone(2), placed) ==>
              placed == [Placed(HOST_B, MEMBER)] && Crowds(ss[4], 1, MembersByZone(2), placed)
  {
    es, ss := NewShard(InZone(), InZone(), Wishes(2));
    AddReplica(ss[3], HOST_A, 1, 4);
    es, ss := RunNext(es, ss, ReplicaPost(Seat(0, HOST_A, 1)));
    WishesStated(ss[4], 2);
    forall placed | Sound(ss[4], 1, MembersByZone(2), placed) && Maximal(ss[4], 1, MembersByZone(2), placed)
      ensures placed == [Placed(HOST_B, MEMBER)] && Crowds(ss[4], 1, MembersByZone(2), placed)
    {
      Repeated(ss[4], placed);
    }
  }

  lemma Repeated(s: State, placed: seq<Placed>)
    requires Halfway(s) && Sound(s, 1, MembersByZone(2), placed) && Maximal(s, 1, MembersByZone(2), placed)
    ensures placed == [Placed(HOST_B, MEMBER)] && Crowds(s, 1, MembersByZone(2), placed)
  {
    HalfwayPlacement(s);
    OnlyMembers(s, 2, placed);
    CountAll(placed, MEMBER);
    assert CountOf(placed, MEMBER) <= 1;
    assert |placed| == 1 || HOST_B in PlacedHosts(placed);
    assert Repeats(s, 1, MembersByZone(2), placed[0].host);
  }

  /******* Rounds without end *******/

  /** No host has a zone: the shard is hopeless, and a controller that may pick any host is stuck. */
  lemma Unzoned() returns (es: seq<Event>, ss: seq<State>)
    ensures IsRun(es, ss) && |es| == 3 && Stated(ss[3], 1, MembersByZone(1))
    ensures Hopeless(ss[3], 1, MembersByZone(1))
    ensures Stuck(AnyHosts(1, MembersByZone(1)), ss[3], 1, MembersByZone(1))
  {
    es, ss := NewShard(Tags(map[]), Tags(map[]), Wishes(1));
    WishesStated(ss[3], 1);
    YoungPlacement(ss[3], Tags(map[]), Tags(map[]), 1);
    TwoHosts();
    var s, p := ss[3], MembersByZone(1);
    assert Useless(s, 1, p, MEMBER) == {HOST_A, HOST_B};
    StuckExactly(s, 1, p, MEMBER);
    assert HOST_A in Eligible(s, 1, p, MEMBER);
  }

  /** Only the second host has a zone, and the registry lists the first one first. There is a good host,
      yet the controller takes the other one again and again. */
  lemma FirstHostUseless(before: (string, string) -> bool, n: nat)
    returns (es: seq<Event>, ss: seq<State>, tt: seq<State>, opss: seq<seq<Op>>)
    requires before(HOST_A, HOST_B) && 3 + Positions(1, n) < U64_LIMIT
    ensures IsRun(es, ss) && |es| == 3 && Stated(ss[3], 1, MembersByZone(1))
    ensures !Carried(ss[3], MembersByZone(1)) && !Hopeless(ss[3], 1, MembersByZone(1))
    ensures RoundsFrom(FirstHosts(before, 1, MembersByZone(1)), tt, opss, ss[3], 1, MembersByZone(1)) && |opss| >= n
  {
    es, ss := NewShard(Tags(map[]), InZone(), Wishes(1));
    WishesStated(ss[3], 1);
    var s, p := ss[3], MembersByZone(1);
    YoungPlacement(s, Tags(map[]), InZone(), 1);
    TwoHosts();
    assert MEMBER in p.desired && HOST_A in s.hosts && MatchFilter(TagsOn(s, HOST_A), FilterOf(p, MEMBER));
    assert HOST_B in Eligible(s, 1, p, MEMBER);
    FirstIsUseless(before, s);
    FirstSteadfast(before, 1, p);
    tt, opss := EndlessRounds(FirstHosts(before, 1, p), s, [Create(HOST_A, 1, false)], 1, p, n);
  }

  lemma FirstIsUseless(before: (string, string) -> bool, s: State)
    requires before(HOST_A, HOST_B) && Young(s, Tags(map[]), InZone(), Wishes(1))
    ensures StuckBy(FirstHosts(before, 1, MembersByZone(1)), s, [Create(HOST_A, 1, false)], 1, MembersByZone(1))
  {
    var p, placed := MembersByZone(1), [Placed(HOST_A, MEMBER)];
    YoungPlacement(s, Tags(map[]), InZone(), 1);
    assert placed[..1] == placed && placed[0].host in PlacedHosts(placed);
    CountAll(placed, MEMBER);
    forall x | x != MEMBER ensures CountOf(placed, x) == 0 {
      CountOther(placed, MEMBER, x);
    }
    assert Creates(1, placed) == [Create(HOST_A, 1, false)];
    assert Sound(s, 1, p, placed) && Maximal(s, 1, p, placed) && Lined(before, s, 1, p, placed);
  }
}
