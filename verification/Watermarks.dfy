/**
 Which commands stamp which rows. A consumer that remembers an index and looks only at rows whose
 update stamp is above it misses nothing: a row stamped at or below a past index, together with
 everything assigned to it, is what it was then.
 */
module Watermarks {
  import opened Registry
  import opened RegistryRuns

  function RowsOnHost(s: State, h: string): map<nat, Replica> {
    map r | r in s.replicas && s.replicas[r].hostId == h :: s.replicas[r]
  }

  function RowsOfShard(s: State, k: nat): map<nat, Replica> {
    map r | r in s.replicas && s.replicas[r].shardId == k :: s.replicas[r]
  }

  /** Hosts of `b` stamped no later than `a` have the replicas, and up to tags the row, that they
      had in `a`; the shards of those replicas that `a` knew still exist with the same type. */
  ghost predicate QuietHosts(a: State, b: State) {
    forall h :: h in b.hosts && b.hosts[h].updated <= a.index ==>
      && h in a.hosts
      && b.hosts[h] == a.hosts[h].(tags := b.hosts[h].tags)
      && RowsOnHost(b, h) == RowsOnHost(a, h)
      && (forall r :: r in b.replicas && b.replicas[r].hostId == h ==>
            SameType(a, b, b.replicas[r].shardId))
  }

  ghost predicate SameType(a: State, b: State, k: nat) {
    k in a.shards ==> k in b.shards && b.shards[k].shardType == a.shards[k].shardType
  }

  /** Shards of `b` stamped no later than `a` have the replicas, leader and term, indeed up to tags
      the whole row, that they had in `a`. */
  ghost predicate QuietShards(a: State, b: State) {
    forall k :: k in b.shards && b.shards[k].updated <= a.index ==>
      && k in a.shards
      && b.shards[k] == a.shards[k].(tags := b.shards[k].tags)
      && RowsOfShard(b, k) == RowsOfShard(a, k)
  }

  /******* One command *******/

  ghost predicate Same(s: State, t: State, r: nat) {
    r in s.replicas && r in t.replicas && s.replicas[r] == t.replicas[r]
  }

  ghost predicate HostMarked(t: State, h: string, index: nat) {
    h in t.hosts ==> t.hosts[h].updated == index
  }

  ghost predicate ShardMarked(t: State, k: nat, index: nat) {
    k in t.shards ==> t.shards[k].updated == index
  }

  /** Every replica row that the step adds, removes or alters has its host stamped. */
  ghost predicate MarksHosts(s: State, t: State, index: nat) {
    && (forall r :: r in s.replicas && !Same(s, t, r) ==> HostMarked(t, s.replicas[r].hostId, index))
    && (forall r :: r in t.replicas && !Same(s, t, r) ==> HostMarked(t, t.replicas[r].hostId, index))
    && (forall r :: r in t.replicas && !SameType(s, t, t.replicas[r].shardId) ==>
          HostMarked(t, t.replicas[r].hostId, index))
  }

  ghost predicate MarksShards(s: State, t: State, index: nat) {
    && (forall r :: r in s.replicas && !Same(s, t, r) ==> ShardMarked(t, s.replicas[r].shardId, index))
    && (forall r :: r in t.replicas && !Same(s, t, r) ==> ShardMarked(t, t.replicas[r].shardId, index))
  }

  /** A put that reassigns a stored replica stamps only the new host and the new shard. */
  predicate MovesHost(s: State, cmd: Command) {
    cmd.ReplicaPut? && cmd.replica.id in s.replicas
    && cmd.replica.hostId != s.replicas[cmd.replica.id].hostId
  }

  predicate MovesShard(s: State, cmd: Command) {
    cmd.ReplicaPut? && cmd.replica.id in s.replicas
    && cmd.replica.shardId != s.replicas[cmd.replica.id].shardId
  }

  lemma StoreReplicaMarks(s: State, base: State, row: Replica, index: nat, value: nat)
    requires Keyed(s) && base == s.(replicaCounter := base.replicaCounter)
    requires StoreReplica(base, row, index, value).Next?
    ensures var t := StoreReplica(base, row, index, value).state;
            && ((row.id in s.replicas ==> row.hostId == s.replicas[row.id].hostId) ==>
                  MarksHosts(s, t, index))
            && ((row.id in s.replicas ==> row.shardId == s.replicas[row.id].shardId) ==>
                  MarksShards(s, t, index))
  {
  }

  lemma HostDelMarks(s: State, host: string, index: nat)
    ensures var t := ApplyHostDel(s, host, index).state;
            MarksHosts(s, t, index) && MarksShards(s, t, index)
  {
  }

  lemma ShardDelMarks(s: State, id: nat, index: nat)
    requires ApplyShardDel(s, id, index).Next?
    ensures var t := ApplyShardDel(s, id, index).state;
            MarksHosts(s, t, index) && MarksShards(s, t, index)
  {
  }

  lemma ReplicaDelMarks(s: State, id: nat, index: nat)
    requires ApplyReplicaDel(s, id, index).Next?
    ensures var t := ApplyReplicaDel(s, id, index).state;
            MarksHosts(s, t, index) && MarksShards(s, t, index)
  {
  }

  lemma StoreShardMarks(s: State, row: Shard, index: nat, value: nat)
    requires StoreShard(s, row, index, value).Next?
    ensures var t := StoreShard(s, row, index, value).state;
            MarksHosts(s, t, index) && MarksShards(s, t, index)
  {
  }

  lemma ReplicaPostMarks(s: State, replica: Replica, index: nat)
    requires Inv(s) && s.index < index < U64_LIMIT && ApplyReplicaPost(s, replica, index).Next?
    ensures var t := ApplyReplicaPost(s, replica, index).state;
            MarksHosts(s, t, index) && MarksShards(s, t, index)
  {
    var id := Incr(s.replicaCounter);
    assert id !in s.replicas;
    var status := if !replica.isNonVoting && |Members(s.replicas, replica.shardId)| < 3
                  then BOOTSTRAPPING else JOINING;
    NewReplicaMarks(s, replica.(id := id, created := index, updated := index, status := status), index);
  }

  lemma NewReplicaMarks(s: State, row: Replica, index: nat)
    requires Keyed(s) && row.id !in s.replicas && StoreReplica(s.(replicaCounter := row.id), row, index, row.id).Next?
    ensures var t := StoreReplica(s.(replicaCounter := row.id), row, index, row.id).state;
            MarksHosts(s, t, index) && MarksShards(s, t, index)
  {
    StoreReplicaMarks(s, s.(replicaCounter := row.id), row, index, row.id);
  }

  lemma ReplicaStatusMarks(s: State, id: nat, status: string, index: nat)
    requires Keyed(s) && ApplyReplicaStatus(s, id, status, index).Next?
    ensures var t := ApplyReplicaStatus(s, id, status, index).state;
            MarksHosts(s, t, index) && MarksShards(s, t, index)
  {
    if id in s.replicas {
      StoreReplicaMarks(s, s, s.replicas[id].(status := status), index, 1);
    }
  }

  lemma ReplicaPutMarks(s: State, replica: Replica, index: nat)
    requires Keyed(s) && ApplyReplicaPut(s, replica, index).Next?
    ensures var t := ApplyReplicaPut(s, replica, index).state;
            && (!MovesHost(s, ReplicaPut(replica)) ==> MarksHosts(s, t, index))
            && (!MovesShard(s, ReplicaPut(replica)) ==> MarksShards(s, t, index))
  {
    if replica.id in s.replicas {
      var was := s.replicas[replica.id];
      var tags := WriteTags(TagsSetNX, replica.tags, was.tags.Entries()).tags;
      var row := replica.(created := was.created, updated := index, tags := tags);
      StoreReplicaMarks(s, s, row, index, 1);
    }
  }

  lemma ReplicaTagsMarks(s: State, op: TagOp, id: nat, tags: TagMap, index: nat)
    requires Keyed(s) && ApplyReplicaTags(s, op, id, tags, index).Next?
    ensures var t := ApplyReplicaTags(s, op, id, tags, index).state;
            MarksHosts(s, t, index) && MarksShards(s, t, index)
  {
    if id in s.replicas {
      var write := WriteTags(op, s.replicas[id].tags, tags.Entries());
      if write.written {
        StoreReplicaMarks(s, s, s.replicas[id].(tags := write.tags), index, 1);
      }
    }
  }

  lemma ShardStoreCommandMarks(s: State, e: Entry)
    requires Inv(s) && Fits(s, e) && ApplyCommand(s, e.cmd, e.index).Next?
    requires e.cmd.ShardPut? || e.cmd.ShardStatus? || e.cmd.ShardTags?
    ensures var t := ApplyCommand(s, e.cmd, e.index).state;
            MarksHosts(s, t, e.index) && MarksShards(s, t, e.index)
  {
    match e.cmd
    case ShardPut(shard) =>
      if shard.id in s.shards {
        var was := s.shards[shard.id];
        var tags := WriteTags(TagsSetNX, shard.tags, was.tags.Entries()).tags;
        var row := shard.(created := was.created, updated := e.index, tags := tags);
        StoreShardMarks(s, row, e.index, shard.id);
      } else if shard.id == 0 && s.shardCounter == 0 {
        StoreShardMarks(s, shard.(created := e.index, updated := e.index), e.index, shard.id);
      }
    case ShardStatus(id, status) =>
      if id in s.shards {
        StoreShardMarks(s, s.shards[id].(status := status, updated := e.index), e.index, 1);
      }
    case ShardTags(op, id, tags) =>
      if id in s.shards {
        var write := WriteTags(op, s.shards[id].tags, tags.Entries());
        if write.written {
          StoreShardMarks(s, s.shards[id].(tags := write.tags), e.index, 1);
        }
      }
  }

  /** The remaining commands leave the replica rows and the shard types alone. */
  lemma OtherCommandMarks(s: State, e: Entry)
    requires Inv(s) && Fits(s, e) && ApplyCommand(s, e.cmd, e.index).Next?
    requires || e.cmd.HostPut? || e.cmd.HostTags? || e.cmd.ShardPost? || e.cmd.ShardTouch?
             || e.cmd.ShardLeader? || e.cmd.Unrecognized? || e.cmd.Malformed?
    ensures var t := ApplyCommand(s, e.cmd, e.index).state;
            MarksHosts(s, t, e.index) && MarksShards(s, t, e.index)
  {
    if e.cmd.ShardPost? || e.cmd.ShardTouch? || e.cmd.ShardLeader? {
      ShardCommandSame(s, e);
    } else {
      HostCommandSame(s, e);
    }
    SameMarks(s, ApplyCommand(s, e.cmd, e.index).state, e.index);
  }

  ghost predicate SameRows(s: State, t: State) {
    t.replicas == s.replicas && forall k :: SameType(s, t, k)
  }

  lemma HostCommandSame(s: State, e: Entry)
    requires e.cmd.HostPut? || e.cmd.HostTags? || e.cmd.Unrecognized? || e.cmd.Malformed?
    requires ApplyCommand(s, e.cmd, e.index).Next?
    ensures SameRows(s, ApplyCommand(s, e.cmd, e.index).state)
  {
  }

  lemma ShardCommandSame(s: State, e: Entry)
    requires Inv(s) && Fits(s, e) && (e.cmd.ShardPost? || e.cmd.ShardTouch? || e.cmd.ShardLeader?)
    requires ApplyCommand(s, e.cmd, e.index).Next?
    ensures SameRows(s, ApplyCommand(s, e.cmd, e.index).state)
  {
  }

  lemma SameMarks(s: State, t: State, index: nat)
    requires SameRows(s, t)
    ensures MarksHosts(s, t, index) && MarksShards(s, t, index)
  {
  }

  lemma CommandMarks(s: State, e: Entry)
    requires Inv(s) && Fits(s, e) && ApplyCommand(s, e.cmd, e.index).Next?
    ensures var t := ApplyCommand(s, e.cmd, e.index).state;
            && (!MovesHost(s, e.cmd) ==> MarksHosts(s, t, e.index))
            && (!MovesShard(s, e.cmd) ==> MarksShards(s, t, e.index))
  {
    match e.cmd
    case HostDel(host) => HostDelMarks(s, host, e.index);
    case ShardDel(id) => ShardDelMarks(s, id, e.index);
    case ShardPut(_) => ShardStoreCommandMarks(s, e);
    case ShardStatus(_, _) => ShardStoreCommandMarks(s, e);
    case ShardTags(_, _, _) => ShardStoreCommandMarks(s, e);
    case ReplicaDel(id) => ReplicaDelMarks(s, id, e.index);
    case ReplicaPost(replica) => ReplicaPostMarks(s, replica, e.index);
    case ReplicaStatus(id, status) => ReplicaStatusMarks(s, id, status, e.index);
    case ReplicaPut(replica) => ReplicaPutMarks(s, replica, e.index);
    case ReplicaTags(op, id, tags) => ReplicaTagsMarks(s, op, id, tags, e.index);
    case _ => OtherCommandMarks(s, e);
  }

  /******* Composition *******/

  lemma QuietHostsExtend(a: State, s: State, t: State, index: nat)
    requires a.index < index && QuietHosts(a, s)
    requires HostsChange(s, t, index) && MarksHosts(s, t, index)
    ensures QuietHosts(a, t)
  {
    forall h | h in t.hosts && t.hosts[h].updated <= a.index
      ensures h in a.hosts && t.hosts[h] == a.hosts[h].(tags := t.hosts[h].tags)
      ensures RowsOnHost(t, h) == RowsOnHost(a, h)
      ensures forall r :: r in t.replicas && t.replicas[r].hostId == h ==>
                SameType(a, t, t.replicas[r].shardId)
    {
      assert h in s.hosts && s.hosts[h].updated <= a.index;
      assert RowsOnHost(t, h) == RowsOnHost(s, h) by {
        forall r | r in s.replicas && s.replicas[r].hostId == h ensures Same(s, t, r) {}
        forall r | r in t.replicas && t.replicas[r].hostId == h ensures Same(s, t, r) {}
      }
      forall r | r in t.replicas && t.replicas[r].hostId == h
        ensures SameType(a, t, t.replicas[r].shardId)
      {
        assert r in RowsOnHost(s, h);
        assert SameType(s, t, t.replicas[r].shardId);
      }
    }
  }

  lemma QuietShardsExtend(a: State, s: State, t: State, index: nat)
    requires a.index < index && QuietShards(a, s)
    requires ShardsChange(s, t, index) && MarksShards(s, t, index)
    ensures QuietShards(a, t)
  {
    forall k | k in t.shards && t.shards[k].updated <= a.index
      ensures k in a.shards && t.shards[k] == a.shards[k].(tags := t.shards[k].tags)
      ensures RowsOfShard(t, k) == RowsOfShard(a, k)
    {
      assert k in s.shards && s.shards[k].updated <= a.index;
      assert RowsOfShard(t, k) == RowsOfShard(s, k) by {
        forall r | r in s.replicas && s.replicas[r].shardId == k ensures Same(s, t, r) {}
        forall r | r in t.replicas && t.replicas[r].shardId == k ensures Same(s, t, r) {}
      }
    }
  }

  /** One more command keeps every earlier state's watermark trustworthy unless it reassigns. */
  lemma QuietStep(a: State, s: State, e: Entry)
    requires Inv(s) && a.index <= s.index && Fits(s, e) && Apply(s, e).Next?
    ensures QuietHosts(a, s) && !MovesHost(s, e.cmd) ==> QuietHosts(a, Apply(s, e).state)
    ensures QuietShards(a, s) && !MovesShard(s, e.cmd) ==> QuietShards(a, Apply(s, e).state)
  {
    var t := ApplyCommand(s, e.cmd, e.index).state;
    CommandChange(s, e);
    CommandMarks(s, e);
    if QuietHosts(a, s) && !MovesHost(s, e.cmd) {
      QuietHostsExtend(a, s, t, e.index);
      QuietHostsIndex(a, t, Apply(s, e).state.index);
    }
    if QuietShards(a, s) && !MovesShard(s, e.cmd) {
      QuietShardsExtend(a, s, t, e.index);
      QuietShardsIndex(a, t, Apply(s, e).state.index);
    }
  }

  /** Neither relation looks at the later state's applied index. */
  lemma QuietHostsIndex(a: State, t: State, index: nat)
    requires QuietHosts(a, t)
    ensures QuietHosts(a, t.(index := index))
  {
    var u := t.(index := index);
    forall h | h in u.hosts && u.hosts[h].updated <= a.index
      ensures RowsOnHost(u, h) == RowsOnHost(a, h)
      ensures forall r :: r in u.replicas && u.replicas[r].hostId == h ==>
                SameType(a, u, u.replicas[r].shardId)
    {
      assert RowsOnHost(u, h) == RowsOnHost(t, h);
      forall r | r in u.replicas && u.replicas[r].hostId == h
        ensures SameType(a, u, u.replicas[r].shardId)
      {
        assert SameType(a, t, t.replicas[r].shardId);
      }
    }
  }

  lemma QuietShardsIndex(a: State, t: State, index: nat)
    requires QuietShards(a, t)
    ensures QuietShards(a, t.(index := index))
  {
    var u := t.(index := index);
    forall k | k in u.shards && u.shards[k].updated <= a.index
      ensures RowsOfShard(u, k) == RowsOfShard(a, k)
    {
      assert RowsOfShard(u, k) == RowsOfShard(t, k);
    }
  }

  /******* Runs *******/

  ghost predicate NoHostMoves(es: seq<Event>, ss: seq<State>, i: nat, j: nat)
    requires |ss| == |es| + 1 && i <= j <= |es|
  {
    forall m :: i <= m < j && es[m].Commit? ==> !MovesHost(ss[m], es[m].entry.cmd)
  }

  ghost predicate NoShardMoves(es: seq<Event>, ss: seq<State>, i: nat, j: nat)
    requires |ss| == |es| + 1 && i <= j <= |es|
  {
    forall m :: i <= m < j && es[m].Commit? ==> !MovesShard(ss[m], es[m].entry.cmd)
  }

  lemma QuietEvent(a: State, s: State, event: Event, t: State)
    requires Inv(s) && a.index <= s.index && Stepped(s, event, t) && (event.Commit? ==> Fits(s, event.entry))
    ensures QuietHosts(a, s) && (event.Commit? ==> !MovesHost(s, event.entry.cmd)) ==> QuietHosts(a, t)
    ensures QuietShards(a, s) && (event.Commit? ==> !MovesShard(s, event.entry.cmd)) ==> QuietShards(a, t)
  {
    match event
    case Restart(_) => RestartQuiet(a, s, t);
    case Commit(e) => QuietStep(a, s, e);
  }

  /** For any two points of any run: a host or shard stamped at or below the earlier point has not
      changed since, as long as nothing was reassigned in between and every restart in between kept the
      tables. */
  lemma {:induction false} NoMissedChange(es: seq<Event>, ss: seq<State>, i: nat, j: nat)
    requires IsRun(es, ss) && i <= j <= |es| && RestartsKeep(es, ss, i, j)
    ensures NoHostMoves(es, ss, i, j) ==> QuietHosts(ss[i], ss[j])
    ensures NoShardMoves(es, ss, i, j) ==> QuietShards(ss[i], ss[j])
    decreases j
  {
    if i < j {
      NoMissedChange(es, ss, i, j - 1);
      Reachable(es, ss, j - 1);
      CountersMonotone(es, ss, i, j - 1);
      KeptStep(es, ss, j - 1);
      QuietEvent(ss[i], ss[j - 1], es[j - 1], ss[j]);
    }
  }

  lemma RestartQuiet(a: State, s: State, t: State)
    requires SameTables(s, t)
    ensures QuietHosts(a, s) ==> QuietHosts(a, t)
    ensures QuietShards(a, s) ==> QuietShards(a, t)
  {
    assert forall h :: RowsOnHost(t, h) == RowsOnHost(s, h);
    assert forall k :: RowsOfShard(t, k) == RowsOfShard(s, k);
    assert forall k :: SameType(a, t, k) == SameType(a, s, k);
  }

  /** Reassigning is the only way to lose a change, and it always does: the former host keeps its
      old stamp while its replica is gone. */
  lemma HostChangeMissedExactly(s: State, e: Entry)
    requires Inv(s) && Fits(s, e) && Apply(s, e).Next?
    ensures QuietHosts(s, Apply(s, e).state) <==> !MovesHost(s, e.cmd)
  {
    QuietStep(s, s, e);
    var t := Apply(s, e).state;
    if MovesHost(s, e.cmd) {
      var r := e.cmd.replica.id;
      var h := s.replicas[r].hostId;
      assert h in t.hosts && t.hosts[h].updated <= s.index;
      assert r in RowsOnHost(s, h) && r !in RowsOnHost(t, h);
    }
  }

  /** The same for shards, where the former shard may not be stored at all. */
  lemma ShardChangeMissedExactly(s: State, e: Entry)
    requires Inv(s) && Fits(s, e) && Apply(s, e).Next?
    ensures QuietShards(s, Apply(s, e).state) <==>
            !(MovesShard(s, e.cmd) && s.replicas[e.cmd.replica.id].shardId in s.shards)
  {
    QuietStep(s, s, e);
    var t := Apply(s, e).state;
    if MovesShard(s, e.cmd) {
      var r := e.cmd.replica.id;
      var k := s.replicas[r].shardId;
      if k in s.shards {
        assert k in t.shards && t.shards[k].updated <= s.index;
        assert r in RowsOfShard(s, k) && r !in RowsOfShard(t, k);
      } else {
        MovedFromMissingShard(s, e);
      }
    }
  }

  lemma MovedFromMissingShard(s: State, e: Entry)
    requires Inv(s) && Fits(s, e) && Apply(s, e).Next?
    requires MovesShard(s, e.cmd) && s.replicas[e.cmd.replica.id].shardId !in s.shards
    ensures QuietShards(s, Apply(s, e).state)
  {
    var t := Apply(s, e).state;
    forall k | k in t.shards && t.shards[k].updated <= s.index
      ensures k in s.shards && RowsOfShard(t, k) == RowsOfShard(s, k)
      ensures t.shards[k] == s.shards[k].(tags := t.shards[k].tags)
    {
    }
  }
}
