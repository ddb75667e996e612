/**
 Where replicas are, and which commands can put one somewhere else: only replica posts and puts
 write a row's host or shard, every other command at most removes rows.
 */
module Places {
  import opened Registry
  import opened RegistryRuns
  import opened Watermarks

  /** Every row of `t` has its place in `s`. */
  ghost predicate Shrinks(s: State, t: State) {
    forall r :: r in t.replicas ==>
      && r in s.replicas
      && t.replicas[r].shardId == s.replicas[r].shardId && t.replicas[r].hostId == s.replicas[r].hostId
  }

  /** One row stored under `r`, whether new or not; all others as before. */
  ghost predicate Stores(s: State, t: State, r: nat, k: nat, host: string) {
    && r in t.replicas && t.replicas[r].shardId == k && t.replicas[r].hostId == host
    && (forall x :: x != r ==> (x in t.replicas <==> x in s.replicas))
    && (forall x :: x != r && x in s.replicas ==> t.replicas[x] == s.replicas[x])
  }

  /** The commands that write replica rows, and no others, can bring a replica to a host. */
  predicate WritesRow(cmd: Command) {
    cmd.ReplicaPost? || cmd.ReplicaPut?
  }

  lemma HostCommandShrinks(s: State, e: Entry)
    requires e.cmd.HostPut? || e.cmd.HostDel? || e.cmd.HostTags? || e.cmd.Unrecognized? || e.cmd.Malformed?
    requires ApplyCommand(s, e.cmd, e.index).Next?
    ensures Shrinks(s, ApplyCommand(s, e.cmd, e.index).state)
  {
  }

  lemma ShardCommandShrinks(s: State, e: Entry)
    requires e.cmd.ShardPost? || e.cmd.ShardTouch? || e.cmd.ShardPut? || e.cmd.ShardStatus? || e.cmd.ShardLeader?
             || e.cmd.ShardDel? || e.cmd.ShardTags?
    requires ApplyCommand(s, e.cmd, e.index).Next?
    ensures Shrinks(s, ApplyCommand(s, e.cmd, e.index).state)
  {
  }

  lemma ReplicaCommandShrinks(s: State, e: Entry)
    requires Keyed(s) && (e.cmd.ReplicaStatus? || e.cmd.ReplicaDel? || e.cmd.ReplicaTags?)
    requires ApplyCommand(s, e.cmd, e.index).Next?
    ensures Shrinks(s, ApplyCommand(s, e.cmd, e.index).state)
  {
  }

  lemma OtherCommandShrinks(s: State, e: Entry)
    requires Keyed(s) && !WritesRow(e.cmd) && ApplyCommand(s, e.cmd, e.index).Next?
    ensures Shrinks(s, ApplyCommand(s, e.cmd, e.index).state)
  {
    if e.cmd.ReplicaStatus? || e.cmd.ReplicaDel? || e.cmd.ReplicaTags? {
      ReplicaCommandShrinks(s, e);
    } else if e.cmd.HostPut? || e.cmd.HostDel? || e.cmd.HostTags? || e.cmd.Unrecognized? || e.cmd.Malformed? {
      HostCommandShrinks(s, e);
    } else {
      ShardCommandShrinks(s, e);
    }
  }

  lemma PostStores(s: State, row: Replica, index: nat)
    requires Inv(s) && s.index < index < U64_LIMIT && ApplyReplicaPost(s, row, index).Next?
    ensures s.replicaCounter + 1 !in s.replicas
    ensures Stores(s, ApplyReplicaPost(s, row, index).state, s.replicaCounter + 1, row.shardId, row.hostId)
  {
  }

  lemma PutStores(s: State, row: Replica, index: nat)
    requires row.id in s.replicas && ApplyReplicaPut(s, row, index).Next?
    ensures Stores(s, ApplyReplicaPut(s, row, index).state, row.id, row.shardId, row.hostId)
  {
  }

  /******* Over time *******/

  /** Rows with an id that `a` had already given out are rows of `a`, and where they were. */
  ghost predicate Stays(a: State, b: State) {
    && a.replicaCounter <= b.replicaCounter
    && (forall r :: r in b.replicas && r <= a.replicaCounter ==>
          && r in a.replicas
          && b.replicas[r].shardId == a.replicas[r].shardId && b.replicas[r].hostId == a.replicas[r].hostId)
  }

  lemma StaysTrans(a: State, b: State, c: State)
    requires Stays(a, b) && Stays(b, c)
    ensures Stays(a, c)
  {
  }

  lemma StaysStep(s: State, e: Entry)
    requires Inv(s) && Fits(s, e) && ApplyCommand(s, e.cmd, e.index).Next?
    requires !MovesHost(s, e.cmd) && !MovesShard(s, e.cmd)
    ensures Stays(s, ApplyCommand(s, e.cmd, e.index).state)
  {
    CommandChange(s, e);
    if e.cmd.ReplicaPost? {
      PostStores(s, e.cmd.replica, e.index);
    } else if e.cmd.ReplicaPut? && e.cmd.replica.id in s.replicas {
      PutStores(s, e.cmd.replica, e.index);
    } else if !WritesRow(e.cmd) {
      OtherCommandShrinks(s, e);
    }
  }

  /** The host is gone, or stamped above the watermark. */
  ghost predicate Stale(s: State, host: string, index: nat) {
    host in s.hosts ==> s.hosts[host].updated > index
  }

  lemma StaleStep(s: State, e: Entry, host: string, index: nat)
    requires Inv(s) && Fits(s, e) && ApplyCommand(s, e.cmd, e.index).Next?
    requires index <= s.index && Stale(s, host, index)
    ensures Stale(ApplyCommand(s, e.cmd, e.index).state, host, index)
  {
    CommandChange(s, e);
  }

  /** What a consumer that read `s` may rely on in the later state `t`. */
  ghost predicate Later(s: State, t: State) {
    && Inv(t) && s.index <= t.index && Stays(s, t)
    && (forall a: State {:trigger QuietHosts(a, t)} :: a.index <= s.index && QuietHosts(a, s) ==> QuietHosts(a, t))
    && (forall a: State {:trigger QuietShards(a, t)} :: a.index <= s.index && QuietShards(a, s) ==> QuietShards(a, t))
    && (forall h, w: nat {:trigger Stale(t, h, w)} :: w <= s.index && Stale(s, h, w) ==> Stale(t, h, w))
  }

  lemma LaterTrans(s: State, t: State, u: State)
    requires Later(s, t) && Later(t, u)
    ensures Later(s, u)
  {
    StaysTrans(s, t, u);
    forall a: State | a.index <= s.index && QuietHosts(a, s) ensures QuietHosts(a, u) {
      assert QuietHosts(a, t);
    }
    forall a: State | a.index <= s.index && QuietShards(a, s) ensures QuietShards(a, u) {
      assert QuietShards(a, t);
    }
    forall h, w: nat | w <= s.index && Stale(s, h, w) ensures Stale(u, h, w) {
      assert Stale(t, h, w);
    }
  }

  /** An event that reassigns no replica. */
  predicate Still(s: State, event: Event) {
    event.Commit? ==> !MovesHost(s, event.entry.cmd) && !MovesShard(s, event.entry.cmd)
  }

  lemma CommitLater(s: State, e: Entry)
    requires Inv(s) && Fits(s, e) && Apply(s, e).Next? && Still(s, Commit(e))
    ensures Later(s, Apply(s, e).state)
  {
    var t, u := Apply(s, e).state, ApplyCommand(s, e.cmd, e.index).state;
    StepInv(s, e);
    StaysStep(s, e);
    assert t.replicas == u.replicas && t.replicaCounter == u.replicaCounter && t.hosts == u.hosts;
    forall a: State | a.index <= s.index && QuietHosts(a, s) ensures QuietHosts(a, t) {
      QuietStep(a, s, e);
    }
    forall a: State | a.index <= s.index && QuietShards(a, s) ensures QuietShards(a, t) {
      QuietStep(a, s, e);
    }
    forall h, w: nat | w <= s.index && Stale(s, h, w) ensures Stale(t, h, w) {
      StaleStep(s, e, h, w);
    }
  }

  lemma RestartLater(s: State, t: State)
    requires Inv(s) && SameTables(s, t) && NamesSound(t)
    ensures Later(s, t)
  {
    forall a: State ensures QuietHosts(a, s) ==> QuietHosts(a, t)
      ensures QuietShards(a, s) ==> QuietShards(a, t)
    {
      RestartQuiet(a, s, t);
    }
  }
}
