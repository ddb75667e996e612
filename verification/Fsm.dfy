/**
 The state machine of the prime shard as it runs: tables updated in place, row by row, while
 iterating over the rows an iterator saw when it was opened. Every walk over a map or an index
 takes its elements in an arbitrary order. `Update` refines the pure transition function.
 */
module Fsm {
  import opened Registry
  import opened RegistryRuns

  /******* Tag loops *******/

  /** Copy every tag of `src` into `dst`. */
  method SetTags(dst: TagMap, src: map<string, string>) returns (write: TagWrite)
    ensures write == WriteTags(TagsSet, dst, src)
  {
    var tags, written, todo := dst, false, src.Keys;
    while todo != {}
      invariant todo <= src.Keys
      invariant written <==> todo != src.Keys
      invariant if written
                then && dst.Tags?
                     && tags == Tags(dst.entries + (map k | k in src && k !in todo :: src[k]))
                else tags == dst
    {
      var k :| k in todo;
      if tags.NilTags? {
        return NilWrite;
      }
      tags, written := Tags(tags.entries[k := src[k]]), true;
      todo := todo - {k};
      assert tags.entries == dst.entries + (map x | x in src && x !in todo :: src[x]);
    }
    assert written ==> (map k | k in src && k !in todo :: src[k]) == src;
    return Wrote(tags, written);
  }

  /** Copy the tags of `src` whose keys `dst` lacks. */
  method SetTagsNX(dst: TagMap, src: map<string, string>) returns (write: TagWrite)
    ensures write == WriteTags(TagsSetNX, dst, src)
  {
    var tags, written, todo := dst, false, src.Keys;
    while todo != {}
      invariant todo <= src.Keys
      invariant written <==> !(src.Keys - todo <= dst.Entries().Keys)
      invariant tags.Entries() == (map k | k in src && k !in todo :: src[k]) + dst.Entries()
      invariant tags.NilTags? == dst.NilTags?
      invariant !written ==> tags == dst
    {
      var k :| k in todo;
      todo := todo - {k};
      if k !in tags.Entries() {
        if tags.NilTags? {
          return NilWrite;
        }
        tags, written := Tags(tags.entries[k := src[k]]), true;
      }
    }
    assert (map k | k in src && k !in todo :: src[k]) == src;
    return Wrote(tags, written);
  }

  /** Delete every key of `src`; deleting from a nil map is allowed and still counts as a write. */
  method RemoveTags(dst: TagMap, src: map<string, string>) returns (write: TagWrite)
    ensures write == WriteTags(TagsRemove, dst, src)
  {
    var tags, written, todo := dst, false, src.Keys;
    while todo != {}
      invariant todo <= src.Keys
      invariant written <==> todo != src.Keys
      invariant tags == if dst.NilTags? then dst else Tags(dst.entries - (src.Keys - todo))
    {
      var k :| k in todo;
      if tags.Tags? {
        tags := Tags(tags.entries - {k});
      }
      written := true;
      todo := todo - {k};
    }
    return Wrote(tags, written);
  }

  method WriteTagsInPlace(op: TagOp, dst: TagMap, src: map<string, string>) returns (write: TagWrite)
    ensures write == WriteTags(op, dst, src)
  {
    match op {
      case TagsSet => write := SetTags(dst, src);
      case TagsSetNX => write := SetTagsNX(dst, src);
      case TagsRemove => write := RemoveTags(dst, src);
    }
  }

  /******* Touching row by row *******/

  lemma TouchShardsTwice(s: State, a: set<nat>, b: set<nat>, index: nat)
    ensures TouchShards(TouchShards(s, a, index), b, index) == TouchShards(s, a + b, index)
  {
    var t := TouchShards(s, a, index);
    assert NamesIn(t.shards, b) == NamesIn(s.shards, b) by {
      forall k | k in b && k in s.shards ensures t.shards[k].name == s.shards[k].name {}
    }
    assert NamesIn(s.shards, a + b) == NamesIn(s.shards, a) + NamesIn(s.shards, b);
  }

  lemma TouchHostsTwice(s: State, a: set<string>, b: set<string>, index: nat)
    ensures TouchHosts(TouchHosts(s, a, index), b, index) == TouchHosts(s, a + b, index)
  {
  }

  class Store {
    var hosts: map<string, Host>
    var shards: map<nat, Shard>
    var replicas: map<nat, Replica>
    var names: set<string>
    var index: nat
    var lastHost: string
    var shardCounter: nat
    var replicaCounter: nat

    function Model(): State
      reads this
    {
      State(hosts, shards, replicas, names, index, lastHost, shardCounter, replicaCounter)
    }

    constructor ()
      ensures Model() == EMPTY
    {
      hosts, shards, replicas, names := map[], map[], map[], {};
      index, lastHost, shardCounter, replicaCounter := 0, "", 0, 0;
    }

    method InsertShard(row: Shard)
      modifies this
      ensures Model() == PutShard(old(Model()), row)
    {
      if row.id in shards && shards[row.id].name != row.name {
        names := names - {shards[row.id].name};
      }
      if row.name != "" {
        names := names + {row.name};
      }
      shards := shards[row.id := row];
    }

    method TouchShard(id: nat, at: nat)
      requires Keyed(Model())
      modifies this
      ensures Keyed(Model()) && Model() == TouchShards(old(Model()), {id}, at)
    {
      if id in shards {
        InsertShard(shards[id].(updated := at));
      }
      assert shards == TouchShards(old(Model()), {id}, at).shards;
    }

    /** Reports false where the original panics. */
    method TouchHost(id: string, at: nat) returns (ok: bool)
      requires Keyed(Model())
      modifies this
      ensures ok <==> id in old(hosts)
      ensures Keyed(Model())
      ensures Model() == if ok then TouchHosts(old(Model()), {id}, at) else old(Model())
    {
      if id !in hosts {
        return false;
      }
      hosts := hosts[id := hosts[id].(updated := at)];
      assert hosts == TouchHosts(old(Model()), {id}, at).hosts;
      return true;
    }

    method TouchShardsOfHost(host: string, at: nat)
      requires Keyed(Model())
      modifies this
      ensures Keyed(Model())
      ensures Model() == TouchShards(old(Model()), ShardsOf(old(replicas), OnHost(old(replicas), host)), at)
    {
      var rows, todo, done := replicas, OnHost(replicas, host), {};
      assert Model() == TouchShards(old(Model()), {}, at);
      while todo != {}
        invariant rows == old(replicas) && todo + done == OnHost(rows, host)
        invariant Keyed(Model())
        invariant Model() == TouchShards(old(Model()), ShardsOf(rows, done), at)
      {
        var r :| r in todo;
        TouchShardsTwice(old(Model()), ShardsOf(rows, done), {rows[r].shardId}, at);
        TouchShard(rows[r].shardId, at);
        assert ShardsOf(rows, done + {r}) == ShardsOf(rows, done) + {rows[r].shardId};
        todo, done := todo - {r}, done + {r};
      }
      assert done == OnHost(rows, host);
    }

    method TouchHostsOfShard(shard: nat, at: nat) returns (ok: bool)
      requires Keyed(Model())
      modifies this
      ensures ok <==> HostsOf(old(replicas), OfShard(old(replicas), shard)) <= old(hosts).Keys
      ensures ok ==> Keyed(Model())
      ensures ok ==>
                Model() == TouchHosts(old(Model()), HostsOf(old(replicas), OfShard(old(replicas), shard)), at)
    {
      var rows, todo, done := replicas, OfShard(replicas, shard), {};
      assert Model() == TouchHosts(old(Model()), {}, at);
      while todo != {}
        invariant rows == old(replicas) && todo + done == OfShard(rows, shard)
        invariant HostsOf(rows, done) <= old(hosts).Keys
        invariant Keyed(Model())
        invariant Model() == TouchHosts(old(Model()), HostsOf(rows, done), at)
      {
        var r :| r in todo;
        TouchHostsTwice(old(Model()), HostsOf(rows, done), {rows[r].hostId}, at);
        var found := TouchHost(rows[r].hostId, at);
        if !found {
          assert rows[r].hostId in HostsOf(rows, OfShard(rows, shard));
          return false;
        }
        assert HostsOf(rows, done + {r}) == HostsOf(rows, done) + {rows[r].hostId};
        todo, done := todo - {r}, done + {r};
      }
      assert done == OfShard(rows, shard);
      return true;
    }
  
    method DeleteReplicasOnHost(host: string, at: nat)
      requires Keyed(Model())
      modifies this
      ensures Keyed(Model())
      ensures var gone := OnHost(old(replicas), host);
              Model() == TouchShards(old(Model()).(replicas := old(replicas) - gone),
                                     ShardsOf(old(replicas), gone), at)
    {
      var rows, todo, done := replicas, OnHost(replicas, host), {};
      assert Model() == TouchShards(old(Model()).(replicas := rows - {}), {}, at);
      while todo != {}
        invariant rows == old(replicas) && todo + done == OnHost(rows, host)
        invariant Keyed(Model())
        invariant Model() == TouchShards(old(Model()).(replicas := rows - done), ShardsOf(rows, done), at)
      {
        var r :| r in todo;
        replicas := replicas - {r};
        assert replicas == rows - (done + {r});
        TouchShardsTwice(old(Model()).(replicas := replicas), ShardsOf(rows, done), {rows[r].shardId}, at);
        TouchShard(rows[r].shardId, at);
        assert ShardsOf(rows, done + {r}) == ShardsOf(rows, done) + {rows[r].shardId};
        todo, done := todo - {r}, done + {r};
      }
      assert done == OnHost(rows, host);
    }

    method DeleteReplicasOfShard(shard: nat, at: nat) returns (ok: bool)
      requires Keyed(Model())
      modifies this
      ensures ok <==> HostsOf(old(replicas), OfShard(old(replicas), shard)) <= old(hosts).Keys
      ensures ok ==> Keyed(Model())
      ensures ok ==>
                var gone := OfShard(old(replicas), shard);
                Model() == TouchHosts(old(Model()).(replicas := old(replicas) - gone),
                                      HostsOf(old(replicas), gone), at)
    {
      var rows, todo, done := replicas, OfShard(replicas, shard), {};
      assert Model() == TouchHosts(old(Model()).(replicas := rows - {}), {}, at);
      while todo != {}
        invariant rows == old(replicas) && todo + done == OfShard(rows, shard)
        invariant HostsOf(rows, done) <= old(hosts).Keys
        invariant Keyed(Model())
        invariant Model() == TouchHosts(old(Model()).(replicas := rows - done), HostsOf(rows, done), at)
      {
        var r :| r in todo;
        replicas := replicas - {r};
        assert replicas == rows - (done + {r});
        TouchHostsTwice(old(Model()).(replicas := replicas), HostsOf(rows, done), {rows[r].hostId}, at);
        var found := TouchHost(rows[r].hostId, at);
        if !found {
          assert rows[r].hostId in HostsOf(rows, OfShard(rows, shard));
          return false;
        }
        assert HostsOf(rows, done + {r}) == HostsOf(rows, done) + {rows[r].hostId};
        todo, done := todo - {r}, done + {r};
      }
      assert done == OfShard(rows, shard);
      return true;
    }

    /******* Host commands *******/

    method UpdateHostPut(host: Host, at: nat) returns (crashed: bool, result: Result)
      requires Keyed(Model())
      modifies this
      ensures ApplyHostPut(old(Model()), host, at) == if crashed then Crash else Next(Model(), result)
    {
      var row := host.(updated := at);
      if host.id in hosts {
        var write := SetTagsNX(host.tags, hosts[host.id].tags.Entries());
        if write.NilWrite? {
          return true, NONE;
        }
        row := row.(created := hosts[host.id].created, tags := write.tags);
      } else {
        row := row.(created := at);
        lastHost := host.id;
      }
      TouchShardsOfHost(host.id, at);
      hosts := hosts[host.id := row];
      return false, Result(1, "");
    }

    method UpdateHostDel(host: string, at: nat) returns (result: Result)
      requires Keyed(Model())
      modifies this
      ensures ApplyHostDel(old(Model()), host, at) == Next(Model(), result)
    {
      if host !in hosts {
        return NONE;
      }
      DeleteReplicasOnHost(host, at);
      hosts := hosts - {host};
      return Result(1, "");
    }

    method UpdateHostTags(op: TagOp, host: string, tags: TagMap, at: nat)
      returns (crashed: bool, result: Result)
      requires Keyed(Model())
      modifies this
      ensures ApplyHostTags(old(Model()), op, host, tags, at)
              == if crashed then Crash else Next(Model(), result)
    {
      if host !in hosts {
        return false, NONE;
      }
      var row := hosts[host];
      var write := WriteTagsInPlace(op, row.tags, tags.Entries());
      if write.NilWrite? {
        return true, NONE;
      }
      if !write.written {
        return false, NONE;
      }
      TouchShardsOfHost(host, at);
      hosts := hosts[host := row.(tags := write.tags)];
      return false, Result(1, "");
    }

    /******* Shard commands *******/

    method UpdateShardPost(shard: Shard, at: nat) returns (result: Result)
      modifies this
      ensures ApplyShardPost(old(Model()), shard, at) == Next(Model(), result)
    {
      if shard.name != "" && shard.name in names {
        return Result(0, "Shard already exists: " + shard.name);
      }
      shardCounter := Incr(shardCounter);
      InsertShard(shard.(id := shardCounter, created := at, updated := at));
      return Result(shardCounter, "");
    }

    method UpdateShardTouch(id: nat, at: nat) returns (crashed: bool, result: Result)
      requires Keyed(Model())
      modifies this
      ensures ApplyShardTouch(old(Model()), id, at) == if crashed then Crash else Next(Model(), result)
    {
      TouchShard(id, at);
      var ok := TouchHostsOfShard(id, at);
      return !ok, Result(id, "");
    }

    /** Insert a row and touch the hosts of the shard's replicas. */
    method SaveShard(row: Shard, at: nat, value: nat) returns (crashed: bool, result: Result)
      requires Keyed(Model())
      modifies this
      ensures StoreShard(old(Model()), row, at, value) == if crashed then Crash else Next(Model(), result)
    {
      InsertShard(row);
      var ok := TouchHostsOfShard(row.id, at);
      return !ok, Result(value, "");
    }

    method UpdateShardPut(shard: Shard, at: nat) returns (crashed: bool, result: Result)
      requires Keyed(Model())
      modifies this
      ensures ApplyShardPut(old(Model()), shard, at) == if crashed then Crash else Next(Model(), result)
    {
      var row := shard.(updated := at);
      if shard.id in shards {
        var write := SetTagsNX(shard.tags, shards[shard.id].tags.Entries());
        if write.NilWrite? {
          return true, NONE;
        }
        row := row.(created := shards[shard.id].created, tags := write.tags);
      } else if shard.id == 0 && shardCounter == 0 {
        row := row.(created := at);
      } else {
        return false, NONE;
      }
      crashed, result := SaveShard(row, at, shard.id);
    }

    method UpdateShardStatus(id: nat, status: string, at: nat) returns (crashed: bool, result: Result)
      requires Keyed(Model())
      modifies this
      ensures ApplyShardStatus(old(Model()), id, status, at)
              == if crashed then Crash else Next(Model(), result)
    {
      if id !in shards {
        return false, NONE;
      }
      crashed, result := SaveShard(shards[id].(status := status, updated := at), at, 1);
    }

    method UpdateShardLeader(id: nat, leader: nat, term: nat, at: nat) returns (result: Result)
      modifies this
      ensures ApplyShardLeader(old(Model()), id, leader, term, at) == Next(Model(), result)
    {
      if id !in shards {
        return NONE;
      }
      InsertShard(shards[id].(leader := leader, term := term, updated := at));
      return Result(1, "");
    }

    method UpdateShardDel(id: nat, at: nat) returns (crashed: bool, result: Result)
      requires Keyed(Model())
      modifies this
      ensures ApplyShardDel(old(Model()), id, at) == if crashed then Crash else Next(Model(), result)
    {
      if id !in shards {
        return false, NONE;
      }
      var ok := DeleteReplicasOfShard(id, at);
      if !ok {
        return true, NONE;
      }
      shards, names := shards - {id}, names - {shards[id].name};
      return false, Result(1, "");
    }

    method UpdateShardTags(op: TagOp, id: nat, tags: TagMap, at: nat)
      returns (crashed: bool, result: Result)
      requires Keyed(Model())
      modifies this
      ensures ApplyShardTags(old(Model()), op, id, tags, at)
              == if crashed then Crash else Next(Model(), result)
    {
      if id !in shards {
        return false, NONE;
      }
      var write := WriteTagsInPlace(op, shards[id].tags, tags.Entries());
      if write.NilWrite? {
        return true, NONE;
      }
      if !write.written {
        return false, NONE;
      }
      crashed, result := SaveShard(shards[id].(tags := write.tags), at, 1);
    }

    /******* Replica commands *******/

    /** Insert a row, then touch its host and its shard. */
    method SaveReplica(row: Replica, at: nat, value: nat) returns (crashed: bool, result: Result)
      requires Keyed(Model())
      modifies this
      ensures StoreReplica(old(Model()), row, at, value) == if crashed then Crash else Next(Model(), result)
    {
      replicas := replicas[row.id := row];
      var ok := TouchHost(row.hostId, at);
      if ok {
        TouchShard(row.shardId, at);
      }
      return !ok, Result(value, "");
    }

    method UpdateReplicaPost(replica: Replica, at: nat) returns (crashed: bool, result: Result)
      requires Keyed(Model())
      modifies this
      ensures ApplyReplicaPost(old(Model()), replica, at)
              == if crashed then Crash else Next(Model(), result)
    {
      replicaCounter := Incr(replicaCounter);
      var row := replica.(id := replicaCounter, created := at, updated := at);
      if !replica.isNonVoting && |Members(replicas, replica.shardId)| < 3 {
        row := row.(status := BOOTSTRAPPING);
      } else {
        row := row.(status := JOINING);
      }
      crashed, result := SaveReplica(row, at, replicaCounter);
    }

    method UpdateReplicaStatus(id: nat, status: string, at: nat) returns (crashed: bool, result: Result)
      requires Keyed(Model())
      modifies this
      ensures ApplyReplicaStatus(old(Model()), id, status, at)
              == if crashed then Crash else Next(Model(), result)
    {
      if id !in replicas {
        return false, NONE;
      }
      crashed, result := SaveReplica(replicas[id].(status := status), at, 1);
    }

    method UpdateReplicaPut(replica: Replica, at: nat) returns (crashed: bool, result: Result)
      requires Keyed(Model())
      modifies this
      ensures ApplyReplicaPut(old(Model()), replica, at) == if crashed then Crash else Next(Model(), result)
    {
      if replica.id !in replicas {
        return false, NONE;
      }
      var was := replicas[replica.id];
      var write := SetTagsNX(replica.tags, was.tags.Entries());
      if write.NilWrite? {
        return true, NONE;
      }
      var row := replica.(created := was.created, updated := at, tags := write.tags);
      crashed, result := SaveReplica(row, at, 1);
    }

    method UpdateReplicaDel(id: nat, at: nat) returns (crashed: bool, result: Result)
      requires Keyed(Model())
      modifies this
      ensures ApplyReplicaDel(old(Model()), id, at) == if crashed then Crash else Next(Model(), result)
    {
      if id !in replicas {
        return false, NONE;
      }
      var row := replicas[id];
      var ok := TouchHost(row.hostId, at);
      if !ok {
        return true, NONE;
      }
      TouchShard(row.shardId, at);
      replicas := replicas - {id};
      return false, Result(1, "");
    }

    method UpdateReplicaTags(op: TagOp, id: nat, tags: TagMap, at: nat)
      returns (crashed: bool, result: Result)
      requires Keyed(Model())
      modifies this
      ensures ApplyReplicaTags(old(Model()), op, id, tags, at)
              == if crashed then Crash else Next(Model(), result)
    {
      if id !in replicas {
        return false, NONE;
      }
      var write := WriteTagsInPlace(op, replicas[id].tags, tags.Entries());
      if write.NilWrite? {
        return true, NONE;
      }
      if !write.written {
        return false, NONE;
      }
      crashed, result := SaveReplica(replicas[id].(tags := write.tags), at, 1);
    }

    /******* Update *******/

    method UpdateCommand(cmd: Command, at: nat) returns (crashed: bool, result: Result)
      requires Keyed(Model())
      modifies this
      ensures ApplyCommand(old(Model()), cmd, at) == if crashed then Crash else Next(Model(), result)
    {
      crashed, result := false, NONE;
      match cmd {
        case HostPut(host) => crashed, result := UpdateHostPut(host, at);
        case HostDel(host) => result := UpdateHostDel(host, at);
        case HostTags(op, host, tags) => crashed, result := UpdateHostTags(op, host, tags, at);
        case ShardPost(shard) => result := UpdateShardPost(shard, at);
        case ShardTouch(id) => crashed, result := UpdateShardTouch(id, at);
        case ShardPut(shard) => crashed, result := UpdateShardPut(shard, at);
        case ShardStatus(id, status) => crashed, result := UpdateShardStatus(id, status, at);
        case ShardLeader(id, leader, term) => result := UpdateShardLeader(id, leader, term, at);
        case ShardDel(id) => crashed, result := UpdateShardDel(id, at);
        case ShardTags(op, id, tags) => crashed, result := UpdateShardTags(op, id, tags, at);
        case ReplicaPost(replica) => crashed, result := UpdateReplicaPost(replica, at);
        case ReplicaStatus(id, status) => crashed, result := UpdateReplicaStatus(id, status, at);
        case ReplicaPut(replica) => crashed, result := UpdateReplicaPut(replica, at);
        case ReplicaDel(id) => crashed, result := UpdateReplicaDel(id, at);
        case ReplicaTags(op, id, tags) => crashed, result := UpdateReplicaTags(op, id, tags, at);
        case Unrecognized =>
        case Malformed =>
      }
    }

    /** Apply one committed entry. Whatever order the loops took, the outcome is `Apply`'s. */
    method Update(e: Entry) returns (crashed: bool, result: Result)
      requires Inv(Model()) && Fits(Model(), e)
      modifies this
      ensures Apply(old(Model()), e) == if crashed then Crash else Next(Model(), result)
      ensures crashed <==> Panics(old(Model()), e.cmd)
      ensures !crashed ==> Inv(Model())
    {
      CrashExactly(Model(), e);
      if !Panics(Model(), e.cmd) {
        StepInv(Model(), e);
      }
      if e.cmd.Malformed? {
        return false, NONE;
      }
      crashed, result := UpdateCommand(e.cmd, e.index);
      index := e.index;
    }
  }
}
