/**
 Runs of the registry: any sequence of committed entries with strictly increasing 64-bit indexes,
 interrupted at any point by a restart from a snapshot. What every reachable state satisfies, and
 exactly which entries can bring the process down.
 */
module RegistryRuns {
  import opened Registry
  import opened Replays

  /******* What every reachable state satisfies *******/

  ghost predicate Keyed(s: State) {
    && (forall h :: h in s.hosts ==> s.hosts[h].id == h)
    && (forall k :: k in s.shards ==> s.shards[k].id == k)
    && (forall r :: r in s.replicas ==> s.replicas[r].id == r)
  }

  /** Every replica is assigned to a stored host. */
  ghost predicate HostsStored(s: State) {
    forall r :: r in s.replicas ==> s.replicas[r].hostId in s.hosts
  }

  /** Ids lie below their counters, and neither counter has outrun the log. */
  ghost predicate IdsBounded(s: State) {
    && s.shardCounter <= s.index
    && s.replicaCounter <= s.index
    && (forall k :: k in s.shards ==> k <= s.shardCounter)
    && (forall r :: r in s.replicas ==> 1 <= r <= s.replicaCounter)
  }

  ghost predicate Stamped(s: State) {
    && (forall h :: h in s.hosts ==> s.hosts[h].created <= s.hosts[h].updated <= s.index)
    && (forall k :: k in s.shards ==> s.shards[k].created <= s.shards[k].updated <= s.index)
    && (forall r :: r in s.replicas ==> s.replicas[r].created <= s.replicas[r].updated <= s.index)
  }

  /** Every indexed name is the name of a stored shard. The converse can fail. */
  ghost predicate NamesSound(s: State) {
    s.names <= NamesOf(s.shards)
  }

  ghost predicate Inv(s: State) {
    Keyed(s) && HostsStored(s) && IdsBounded(s) && Stamped(s) && NamesSound(s)
  }

  /** Entries arrive with an index above everything applied so far. */
  ghost predicate Fits(s: State, e: Entry) {
    s.index < e.index < U64_LIMIT
  }

  /******* What one command may change *******/

  ghost predicate HostsChange(s: State, t: State, index: nat) {
    forall h :: h in t.hosts ==>
      var row := t.hosts[h];
      && row.id == h
      && if h in s.hosts
         then && row.created == s.hosts[h].created
              && (row.updated == index || row == s.hosts[h].(tags := row.tags))
         else row.created == row.updated == index
  }

  ghost predicate ShardsChange(s: State, t: State, index: nat) {
    forall k :: k in t.shards ==>
      var row := t.shards[k];
      && row.id == k
      && if k in s.shards
         then && row.created == s.shards[k].created
              && (row.updated == index || row == s.shards[k].(tags := row.tags))
         else row.created == row.updated == index && k <= t.shardCounter
  }

  ghost predicate ReplicasChange(s: State, t: State, index: nat) {
    forall r :: r in t.replicas ==>
      var row := t.replicas[r];
      && row.id == r
      && row.hostId in t.hosts
      && if r in s.replicas
         then && row.created == s.replicas[r].created
              && (row.updated == index || row.updated == s.replicas[r].updated)
         else row.created == row.updated == index && 1 <= r <= t.replicaCounter
  }

  /** The counters move by at most one, and only a post moves one. */
  ghost predicate CountersChange(s: State, t: State) {
    && s.shardCounter <= t.shardCounter <= s.shardCounter + 1
    && s.replicaCounter <= t.replicaCounter <= s.replicaCounter + 1
    && s.index == t.index
  }

  ghost predicate Change(s: State, t: State, index: nat) {
    && HostsChange(s, t, index) && ShardsChange(s, t, index) && ReplicasChange(s, t, index)
    && CountersChange(s, t) && NamesSound(t)
  }

  lemma PutShardNames(s: State, row: Shard)
    requires NamesSound(s)
    ensures NamesSound(PutShard(s, row))
  {
    var t := PutShard(s, row);
    forall n | n in t.names ensures n in NamesOf(t.shards) {
      if n != row.name {
        var k :| k in s.shards && s.shards[k].name != "" && s.shards[k].name == n;
        assert k in t.shards && t.shards[k].name == n;
      } else {
        assert t.shards[row.id].name == n;
      }
    }
  }

  lemma DropShardNames(s: State, id: nat)
    requires NamesSound(s) && id in s.shards
    ensures NamesSound(DropShard(s, id))
  {
    var t := DropShard(s, id);
    forall n | n in t.names ensures n in NamesOf(t.shards) {
      var k :| k in s.shards && s.shards[k].name != "" && s.shards[k].name == n;
      assert k in t.shards && t.shards[k].name == n;
    }
  }

  lemma TouchShardsNames(s: State, ids: set<nat>, index: nat)
    requires NamesSound(s)
    ensures NamesSound(TouchShards(s, ids, index))
  {
    var t := TouchShards(s, ids, index);
    forall n | n in t.names ensures n in NamesOf(t.shards) {
      var k :| k in s.shards && s.shards[k].name != "" && s.shards[k].name == n;
      assert k in t.shards && t.shards[k].name == n;
    }
  }

  lemma HostPutChange(s: State, host: Host, index: nat)
    requires Inv(s) && s.index < index && ApplyHostPut(s, host, index).Next?
    ensures Change(s, ApplyHostPut(s, host, index).state, index)
  {
    TouchShardsNames(s, ShardsOf(s.replicas, OnHost(s.replicas, host.id)), index);
  }

  lemma HostDelChange(s: State, host: string, index: nat)
    requires Inv(s) && s.index < index
    ensures Change(s, ApplyHostDel(s, host, index).state, index)
  {
    TouchShardsNames(s, ShardsOf(s.replicas, OnHost(s.replicas, host)), index);
  }

  lemma HostTagsChange(s: State, op: TagOp, host: string, tags: TagMap, index: nat)
    requires Inv(s) && s.index < index && ApplyHostTags(s, op, host, tags, index).Next?
    ensures Change(s, ApplyHostTags(s, op, host, tags, index).state, index)
  {
    TouchShardsNames(s, ShardsOf(s.replicas, OnHost(s.replicas, host)), index);
  }

  lemma StoreShardChange(s: State, row: Shard, index: nat, value: nat)
    requires Inv(s) && StoreShard(s, row, index, value).Next?
    requires ShardsChange(s, s.(shards := s.shards[row.id := row]), index)
    ensures Change(s, StoreShard(s, row, index, value).state, index)
  {
    PutShardNames(s, row);
  }

  lemma StoreReplicaChange(s: State, base: State, row: Replica, index: nat, value: nat)
    requires Inv(s) && StoreReplica(base, row, index, value).Next?
    requires base == s.(replicaCounter := base.replicaCounter)
    requires s.replicaCounter <= base.replicaCounter <= s.replicaCounter + 1
    requires if row.id in s.replicas
             then && row.created == s.replicas[row.id].created
                  && (row.updated == index || row.updated == s.replicas[row.id].updated)
             else row.created == row.updated == index && 1 <= row.id <= base.replicaCounter
    ensures Change(s, StoreReplica(base, row, index, value).state, index)
  {
    TouchShardsNames(base.(replicas := base.replicas[row.id := row]), {row.shardId}, index);
  }

  lemma ShardPostChange(s: State, shard: Shard, index: nat)
    requires Inv(s) && s.index < index < U64_LIMIT
    ensures Change(s, ApplyShardPost(s, shard, index).state, index)
  {
    var id := Incr(s.shardCounter);
    PutShardNames(s.(shardCounter := id), shard.(id := id, created := index, updated := index));
  }

  lemma ShardTouchChange(s: State, id: nat, index: nat)
    requires Inv(s) && s.index < index && ApplyShardTouch(s, id, index).Next?
    ensures Change(s, ApplyShardTouch(s, id, index).state, index)
  {
    TouchShardsNames(s, {id}, index);
  }

  lemma ShardLeaderChange(s: State, id: nat, leader: nat, term: nat, index: nat)
    requires Inv(s) && s.index < index
    ensures Change(s, ApplyShardLeader(s, id, leader, term, index).state, index)
  {
    if id in s.shards {
      PutShardNames(s, s.shards[id].(leader := leader, term := term, updated := index));
    }
  }

  lemma ShardDelChange(s: State, id: nat, index: nat)
    requires Inv(s) && s.index < index && ApplyShardDel(s, id, index).Next?
    ensures Change(s, ApplyShardDel(s, id, index).state, index)
  {
    if id in s.shards {
      DropShardNames(s.(replicas := s.replicas - OfShard(s.replicas, id)), id);
    }
  }

  lemma ReplicaDelChange(s: State, id: nat, index: nat)
    requires Inv(s) && s.index < index && ApplyReplicaDel(s, id, index).Next?
    ensures Change(s, ApplyReplicaDel(s, id, index).state, index)
  {
    if id in s.replicas {
      TouchShardsNames(s.(replicas := s.replicas - {id}), {s.replicas[id].shardId}, index);
    }
  }

  lemma ShardStoreCommandChange(s: State, e: Entry)
    requires Inv(s) && Fits(s, e) && ApplyCommand(s, e.cmd, e.index).Next?
    requires e.cmd.ShardPut? || e.cmd.ShardStatus? || e.cmd.ShardTags?
    ensures Change(s, ApplyCommand(s, e.cmd, e.index).state, e.index)
  {
    match e.cmd
    case ShardPut(shard) =>
      if shard.id in s.shards {
        var was := s.shards[shard.id];
        var tags := WriteTags(TagsSetNX, shard.tags, was.tags.Entries()).tags;
        var row := shard.(created := was.created, updated := e.index, tags := tags);
        StoreShardChange(s, row, e.index, shard.id);
      } else if shard.id == 0 && s.shardCounter == 0 {
        StoreShardChange(s, shard.(created := e.index, updated := e.index), e.index, shard.id);
      }
    case ShardStatus(id, status) =>
      if id in s.shards {
        StoreShardChange(s, s.shards[id].(status := status, updated := e.index), e.index, 1);
      }
    case ShardTags(op, id, tags) =>
      if id in s.shards {
        var write := WriteTags(op, s.shards[id].tags, tags.Entries());
        if write.written {
          StoreShardChange(s, s.shards[id].(tags := write.tags), e.index, 1);
        }
      }
  }

  lemma ReplicaStoreCommandChange(s: State, e: Entry)
    requires Inv(s) && Fits(s, e) && ApplyCommand(s, e.cmd, e.index).Next?
    requires e.cmd.ReplicaPost? || e.cmd.ReplicaStatus? || e.cmd.ReplicaPut? || e.cmd.ReplicaTags?
    ensures Change(s, ApplyCommand(s, e.cmd, e.index).state, e.index)
  {
    match e.cmd
    case ReplicaPost(replica) =>
      var id := Incr(s.replicaCounter);
      var status := if !replica.isNonVoting && |Members(s.replicas, replica.shardId)| < 3
                    then BOOTSTRAPPING else JOINING;
      var row := replica.(id := id, created := e.index, updated := e.index, status := status);
      StoreReplicaChange(s, s.(replicaCounter := id), row, e.index, id);
    case ReplicaStatus(id, status) =>
      if id in s.replicas {
        StoreReplicaChange(s, s, s.replicas[id].(status := status), e.index, 1);
      }
    case ReplicaPut(replica) =>
      if replica.id in s.replicas {
        var was := s.replicas[replica.id];
        var tags := WriteTags(TagsSetNX, replica.tags, was.tags.Entries()).tags;
        var row := replica.(created := was.created, updated := e.index, tags := tags);
        StoreReplicaChange(s, s, row, e.index, 1);
      }
    case ReplicaTags(op, id, tags) =>
      if id in s.replicas {
        var write := WriteTags(op, s.replicas[id].tags, tags.Entries());
        if write.written {
          StoreReplicaChange(s, s, s.replicas[id].(tags := write.tags), e.index, 1);
        }
      }
  }

  lemma CommandChange(s: State, e: Entry)
    requires Inv(s) && Fits(s, e) && ApplyCommand(s, e.cmd, e.index).Next?
    ensures Change(s, ApplyCommand(s, e.cmd, e.index).state, e.index)
  {
    match e.cmd
    case HostPut(host) => HostPutChange(s, host, e.index);
    case HostDel(host) => HostDelChange(s, host, e.index);
    case HostTags(op, host, tags) => HostTagsChange(s, op, host, tags, e.index);
    case ShardPost(shard) => ShardPostChange(s, shard, e.index);
    case ShardTouch(id) => ShardTouchChange(s, id, e.index);
    case ShardLeader(id, leader, term) => ShardLeaderChange(s, id, leader, term, e.index);
    case ShardDel(id) => ShardDelChange(s, id, e.index);
    case ReplicaDel(id) => ReplicaDelChange(s, id, e.index);
    case ShardPut(_) => ShardStoreCommandChange(s, e);
    case ShardStatus(_, _) => ShardStoreCommandChange(s, e);
    case ShardTags(_, _, _) => ShardStoreCommandChange(s, e);
    case ReplicaPost(_) => ReplicaStoreCommandChange(s, e);
    case ReplicaStatus(_, _) => ReplicaStoreCommandChange(s, e);
    case ReplicaPut(_) => ReplicaStoreCommandChange(s, e);
    case ReplicaTags(_, _, _) => ReplicaStoreCommandChange(s, e);
    case Unrecognized =>
    case Malformed =>
  }

  lemma StepInv(s: State, e: Entry)
    requires Inv(s) && Fits(s, e) && Apply(s, e).Next?
    ensures Inv(Apply(s, e).state)
  {
    CommandChange(s, e);
  }

  /******* Which entries panic *******/

  predicate WritesIntoNil(op: TagOp, dst: TagMap, src: TagMap) {
    dst.NilTags? && !op.TagsRemove? && src.Entries() != map[]
  }

  /** What a proposer could check beforehand. A missing host matters to two commands only. */
  predicate Panics(s: State, cmd: Command) {
    match cmd
    case HostPut(h) => h.id in s.hosts && WritesIntoNil(TagsSetNX, h.tags, s.hosts[h.id].tags)
    case HostTags(op, h, tags) => h in s.hosts && WritesIntoNil(op, s.hosts[h].tags, tags)
    case ShardPut(k) => k.id in s.shards && WritesIntoNil(TagsSetNX, k.tags, s.shards[k.id].tags)
    case ShardTags(op, k, tags) => k in s.shards && WritesIntoNil(op, s.shards[k].tags, tags)
    case ReplicaPost(r) => r.hostId !in s.hosts
    case ReplicaPut(r) =>
      && r.id in s.replicas
      && (r.hostId !in s.hosts || WritesIntoNil(TagsSetNX, r.tags, s.replicas[r.id].tags))
    case ReplicaTags(op, r, tags) => r in s.replicas && WritesIntoNil(op, s.replicas[r].tags, tags)
    case _ => false
  }

  lemma EmptyKeys(m: map<string, string>)
    ensures m.Keys <= {} <==> m == map[]
  {
    if m.Keys <= {} {
      assert m.Keys == {};
    }
  }

  lemma HostCrashExactly(s: State, cmd: Command, index: nat)
    requires cmd.HostPut? || cmd.HostTags? || cmd.HostDel? || cmd.Unrecognized? || cmd.Malformed?
    ensures ApplyCommand(s, cmd, index).Crash? <==> Panics(s, cmd)
  {
    match cmd
    case HostPut(h) =>
      if h.id in s.hosts { EmptyKeys(s.hosts[h.id].tags.Entries()); }
    case HostTags(op, h, tags) => EmptyKeys(tags.Entries());
    case _ =>
  }

  lemma ShardCrashExactly(s: State, cmd: Command, index: nat)
    requires HostsStored(s)
    requires cmd.ShardPost? || cmd.ShardTouch? || cmd.ShardPut? || cmd.ShardStatus? || cmd.ShardLeader? || cmd.ShardDel?
             || cmd.ShardTags?
    ensures ApplyCommand(s, cmd, index).Crash? <==> Panics(s, cmd)
  {
    match cmd
    case ShardPut(k) =>
      if k.id in s.shards { EmptyKeys(s.shards[k.id].tags.Entries()); }
    case ShardTags(op, k, tags) => EmptyKeys(tags.Entries());
    case _ =>
  }

  lemma ReplicaCrashExactly(s: State, cmd: Command, index: nat)
    requires HostsStored(s)
    requires cmd.ReplicaPost? || cmd.ReplicaStatus? || cmd.ReplicaPut? || cmd.ReplicaDel? || cmd.ReplicaTags?
    ensures ApplyCommand(s, cmd, index).Crash? <==> Panics(s, cmd)
  {
    match cmd
    case ReplicaPut(r) =>
      if r.id in s.replicas { EmptyKeys(s.replicas[r.id].tags.Entries()); }
    case ReplicaTags(op, r, tags) => EmptyKeys(tags.Entries());
    case _ =>
  }

  lemma CrashExactly(s: State, e: Entry)
    requires Inv(s)
    ensures Apply(s, e).Crash? <==> Panics(s, e.cmd)
  {
    if e.cmd.HostPut? || e.cmd.HostTags? || e.cmd.HostDel? || e.cmd.Unrecognized? || e.cmd.Malformed? {
      HostCrashExactly(s, e.cmd, e.index);
    } else if e.cmd.ReplicaPost? || e.cmd.ReplicaStatus? || e.cmd.ReplicaPut? || e.cmd.ReplicaDel? || e.cmd.ReplicaTags? {
      ReplicaCrashExactly(s, e.cmd, e.index);
    } else {
      ShardCrashExactly(s, e.cmd, e.index);
    }
  }

  /******* The log behind a state *******/

  /** How many replicas the log has posted. */
  function Posts(log: seq<Entry>): nat {
    if log == [] then 0
    else Posts(log[..|log| - 1]) + if log[|log| - 1].cmd.ReplicaPost? then 1 else 0
  }

  /** The index of the entry that posted replica `r`. */
  function PostIndex(log: seq<Entry>, r: nat): nat {
    if log == [] then 0
    else if log[|log| - 1].cmd.ReplicaPost? && Posts(log) == r then log[|log| - 1].index
    else PostIndex(log[..|log| - 1], r)
  }

  /** The index of the last entry that could be read. */
  function LastIndex(log: seq<Entry>): nat {
    if log == [] then 0
    else if log[|log| - 1].cmd.Malformed? then LastIndex(log[..|log| - 1])
    else log[|log| - 1].index
  }

  /** The applied index, the replica counter and the birth of every replica are those of the log,
      whatever became of its other effects. */
  ghost predicate Ledger(s: State, log: seq<Entry>) {
    && s.index == LastIndex(log)
    && s.replicaCounter == Posts(log)
    && (forall r :: r in s.replicas ==> s.replicas[r].created == PostIndex(log, r))
  }

  ghost predicate Ordered(log: seq<Entry>, after: nat) {
    && (forall i :: 0 <= i < |log| ==> after < log[i].index < U64_LIMIT)
    && (forall i, j :: 0 <= i < j < |log| ==> log[i].index < log[j].index)
  }

  lemma NewReplicaRow(s: State, e: Entry, r: nat)
    requires Inv(s) && Fits(s, e) && Apply(s, e).Next?
    requires r in Apply(s, e).state.replicas && r !in s.replicas
    ensures e.cmd.ReplicaPost? && r == s.replicaCounter + 1
  {
  }

  lemma CounterStep(s: State, e: Entry)
    requires Inv(s) && Fits(s, e) && Apply(s, e).Next?
    ensures var t := Apply(s, e).state;
            && t.replicaCounter == s.replicaCounter + (if e.cmd.ReplicaPost? then 1 else 0)
            && t.index == if e.cmd.Malformed? then s.index else e.index
  {
  }

  lemma LedgerStep(s: State, log: seq<Entry>, e: Entry)
    requires Inv(s) && Ledger(s, log) && Fits(s, e) && Apply(s, e).Next?
    ensures Ledger(Apply(s, e).state, log + [e])
  {
    var t := Apply(s, e).state;
    CounterStep(s, e);
    assert (log + [e])[..|log|] == log;
    forall r | r in t.replicas ensures t.replicas[r].created == PostIndex(log + [e], r) {
      CreatedStep(s, e, r);
    }
  }

  lemma CreatedStep(s: State, e: Entry, r: nat)
    requires Inv(s) && Fits(s, e) && Apply(s, e).Next? && r in Apply(s, e).state.replicas
    ensures if r in s.replicas then Apply(s, e).state.replicas[r].created == s.replicas[r].created && r <= s.replicaCounter
            else e.cmd.ReplicaPost? && r == s.replicaCounter + 1 && Apply(s, e).state.replicas[r].created == e.index
  {
    CommandChange(s, e);
    if r !in s.replicas {
      NewReplicaRow(s, e, r);
    }
  }

  lemma InvLedgerStep(s: State, log: seq<Entry>, e: Entry)
    requires Inv(s) && Ledger(s, log) && Fits(s, e) && Apply(s, e).Next?
    ensures var t := Apply(s, e).state; Inv(t) && Ledger(t, log + [e]) && t.index <= e.index
  {
    StepInv(s, e);
    LedgerStep(s, log, e);
    CounterStep(s, e);
  }

  lemma OrderedTail(log: seq<Entry>, after: nat, index: nat)
    requires Ordered(log, after) && log != [] && index <= log[0].index
    ensures Ordered(log[1..], index)
  {
  }

  lemma {:induction false} ReplayLedger(s: State, log: seq<Entry>, more: seq<Entry>)
    requires Inv(s) && Ledger(s, log) && Ordered(more, s.index) && Replay(s, more).Up?
    ensures Inv(Replay(s, more).state) && Ledger(Replay(s, more).state, log + more)
    decreases |more|
  {
    if more == [] {
      assert log + more == log;
    } else {
      var t := Apply(s, more[0]).state;
      ReplayNext(s, more);
      InvLedgerStep(s, log, more[0]);
      OrderedTail(more, s.index, t.index);
      ReplayLedger(t, log + [more[0]], more[1..]);
      assert log + [more[0]] + more[1..] == log + more;
    }
  }

  /******* Runs *******/

  /** Loading a snapshot keeps the tables and rebuilds the name index from the shard rows. */
  function Recovered(s: State): State {
    s.(names := NamesOf(s.shards))
  }

  /** A restart loads the snapshot taken after the first `from` events and applies the entries
      committed since. */
  datatype Event = Commit(entry: Entry) | Restart(from: nat)

  /** The entries committed by the events from `n` to `i`. */
  function Since(es: seq<Event>, n: nat, i: nat): seq<Entry>
    requires n <= i <= |es|
    decreases i
  {
    if n == i then []
    else if es[i - 1].Commit? then Since(es, n, i - 1) + [es[i - 1].entry]
    else Since(es, n, i - 1)
  }

  ghost predicate ValidEvents(es: seq<Event>) {
    && (forall i :: 0 <= i < |es| && es[i].Commit? ==> 0 < es[i].entry.index < U64_LIMIT)
    && (forall i, j :: 0 <= i < j < |es| && es[i].Commit? && es[j].Commit? ==>
          es[i].entry.index < es[j].entry.index)
  }

  ghost predicate StepAt(es: seq<Event>, ss: seq<State>, i: nat)
    requires |ss| == |es| + 1 && i < |es|
  {
    match es[i]
    case Commit(e) => Apply(ss[i], e).Next? && Apply(ss[i], e).state == ss[i + 1]
    case Restart(n) =>
      && n <= i
      && var replayed := Replay(Recovered(ss[n]), Since(es, n, i));
         replayed.Up? && replayed.state == ss[i + 1]
  }

  /** `ss[i]` is the registry after the first `i` events; nothing has crashed. */
  ghost predicate IsRun(es: seq<Event>, ss: seq<State>) {
    && ValidEvents(es)
    && |ss| == |es| + 1
    && ss[0] == EMPTY
    && (forall i {:trigger StepAt(es, ss, i)} :: 0 <= i < |es| ==> StepAt(es, ss, i))
  }

  lemma {:induction false} SinceSplit(es: seq<Event>, n: nat, i: nat)
    requires n <= i <= |es|
    ensures Since(es, 0, i) == Since(es, 0, n) + Since(es, n, i)
    decreases i
  {
    if n < i {
      SinceSplit(es, n, i - 1);
    }
  }

  ghost predicate Below(log: seq<Entry>, index: nat) {
    forall x :: 0 <= x < |log| ==> log[x].index < index
  }

  lemma {:induction false} SinceBelow(es: seq<Event>, n: nat, i: nat, j: nat)
    requires ValidEvents(es) && n <= i <= j < |es| && es[j].Commit?
    ensures Below(Since(es, n, i), es[j].entry.index)
    decreases i
  {
    if n < i {
      SinceBelow(es, n, i - 1, j);
    }
  }

  lemma {:induction false} LastBelow(log: seq<Entry>, index: nat)
    requires Below(log, index) && index > 0
    ensures LastIndex(log) < index
  {
    if log != [] {
      LastBelow(log[..|log| - 1], index);
    }
  }

  lemma {:induction false} SinceOrdered(es: seq<Event>, n: nat, i: nat)
    requires ValidEvents(es) && n <= i <= |es|
    ensures Ordered(Since(es, n, i), LastIndex(Since(es, 0, n)))
    decreases i
  {
    if n < i {
      SinceOrdered(es, n, i - 1);
      if es[i - 1].Commit? {
        SinceBelow(es, n, i - 1, i - 1);
        SinceBelow(es, 0, n, i - 1);
        LastBelow(Since(es, 0, n), es[i - 1].entry.index);
        OrderedSnoc(Since(es, n, i - 1), LastIndex(Since(es, 0, n)), es[i - 1].entry);
      }
    }
  }

  lemma OrderedSnoc(log: seq<Entry>, after: nat, e: Entry)
    requires Ordered(log, after) && Below(log, e.index) && after < e.index < U64_LIMIT
    ensures Ordered(log + [e], after)
  {
  }

  lemma RecoveredInv(s: State, log: seq<Entry>)
    requires Inv(s) && Ledger(s, log)
    ensures Inv(Recovered(s)) && Ledger(Recovered(s), log)
  {
  }

  /** In every state of every run, with restarts from any snapshot in between, the invariant holds,
      and counters and births are those of the log. */
  lemma {:induction false} RunLedger(es: seq<Event>, ss: seq<State>, i: nat)
    requires IsRun(es, ss) && i <= |es|
    ensures Inv(ss[i]) && Ledger(ss[i], Since(es, 0, i))
  {
    if i > 0 {
      assert StepAt(es, ss, i - 1);
      match es[i - 1]
      case Commit(e) =>
        RunLedger(es, ss, i - 1);
        CommitLedger(es, i - 1, ss[i - 1]);
      case Restart(n) =>
        RunLedger(es, ss, n);
        RestartLedger(es, i - 1, ss[n]);
    }
  }

  lemma CommitLedger(es: seq<Event>, i: nat, s: State)
    requires ValidEvents(es) && i < |es| && es[i].Commit? && Apply(s, es[i].entry).Next?
    requires Inv(s) && Ledger(s, Since(es, 0, i))
    ensures Inv(Apply(s, es[i].entry).state) && Ledger(Apply(s, es[i].entry).state, Since(es, 0, i + 1))
  {
    var e, log := es[i].entry, Since(es, 0, i);
    SinceBelow(es, 0, i, i);
    LastBelow(log, e.index);
    InvLedgerStep(s, log, e);
  }

  lemma RestartLedger(es: seq<Event>, i: nat, s: State)
    requires ValidEvents(es) && i < |es| && es[i].Restart? && es[i].from <= i
    requires Inv(s) && Ledger(s, Since(es, 0, es[i].from)) && Replay(Recovered(s), Since(es, es[i].from, i)).Up?
    ensures var t := Replay(Recovered(s), Since(es, es[i].from, i)).state;
            Inv(t) && Ledger(t, Since(es, 0, i + 1))
  {
    var n := es[i].from;
    SinceSplit(es, n, i);
    SinceOrdered(es, n, i);
    RecoveredInv(s, Since(es, 0, n));
    ReplayLedger(Recovered(s), Since(es, 0, n), Since(es, n, i));
  }

  /** Every state of every run satisfies the invariant, and the log is always ahead of it. */
  lemma Reachable(es: seq<Event>, ss: seq<State>, i: nat)
    requires IsRun(es, ss) && i <= |es|
    ensures Inv(ss[i])
    ensures forall j :: i <= j < |es| && es[j].Commit? ==> Fits(ss[i], es[j].entry)
  {
    RunLedger(es, ss, i);
    forall j | i <= j < |es| && es[j].Commit? ensures Fits(ss[i], es[j].entry) {
      SinceBelow(es, 0, i, j);
      LastBelow(Since(es, 0, i), es[j].entry.index);
    }
  }

  /** After any run, the next entry takes the process down exactly when `Panics` says so. */
  lemma CrashesExactlyWhen(es: seq<Event>, ss: seq<State>, e: Entry)
    requires IsRun(es, ss)
    ensures Apply(ss[|es|], e).Crash? <==> Panics(ss[|es|], e.cmd)
  {
    Reachable(es, ss, |es|);
    CrashExactly(ss[|es|], e);
  }

  /******* Replica ids over a run *******/

  lemma {:induction false} PostsGrow(a: seq<Entry>, b: seq<Entry>)
    ensures Posts(a) <= Posts(a + b)
    ensures forall r: nat :: r <= Posts(a) ==> PostIndex(a + b, r) == PostIndex(a, r)
    decreases |b|
  {
    if b == [] {
      assert a + b == a;
    } else {
      PostsGrow(a, b[..|b| - 1]);
      assert (a + b)[..|a + b| - 1] == a + b[..|b| - 1];
    }
  }

  lemma {:induction false} LastGrows(a: seq<Entry>, b: seq<Entry>)
    requires Ordered(b, LastIndex(a))
    ensures LastIndex(a) <= LastIndex(a + b)
    decreases |b|
  {
    if b == [] {
      assert a + b == a;
    } else {
      LastGrows(a, b[..|b| - 1]);
      assert (a + b)[..|a + b| - 1] == a + b[..|b| - 1];
    }
  }

  /** Neither the applied index nor the replica counter ever goes back. */
  lemma CountersMonotone(es: seq<Event>, ss: seq<State>, i: nat, j: nat)
    requires IsRun(es, ss) && i <= j <= |es|
    ensures ss[i].index <= ss[j].index
    ensures ss[i].replicaCounter <= ss[j].replicaCounter
  {
    RunLedger(es, ss, i);
    RunLedger(es, ss, j);
    SinceSplit(es, i, j);
    SinceOrdered(es, i, j);
    PostsGrow(Since(es, 0, i), Since(es, i, j));
    LastGrows(Since(es, 0, i), Since(es, i, j));
  }

  /** A replica row found at two points of a run was created by the same post, for ids never come
      back. */
  lemma ReplicaCreatedOnce(es: seq<Event>, ss: seq<State>, i: nat, j: nat, r: nat)
    requires IsRun(es, ss) && i <= j <= |es| && r in ss[i].replicas && r in ss[j].replicas
    ensures ss[i].replicas[r].created == ss[j].replicas[r].created
  {
    RunLedger(es, ss, i);
    RunLedger(es, ss, j);
    SinceSplit(es, i, j);
    PostsGrow(Since(es, 0, i), Since(es, i, j));
  }

  /** The result that the commit at position `j` reports to its proposer. */
  ghost function ResultAt(es: seq<Event>, ss: seq<State>, j: nat): Result
    requires IsRun(es, ss) && j < |es| && es[j].Commit?
  {
    assert StepAt(es, ss, j);
    Apply(ss[j], es[j].entry).result
  }

  lemma PostAdvances(s: State, e: Entry)
    requires Inv(s) && Fits(s, e) && Apply(s, e).Next?
    ensures e.cmd.ReplicaPost? ==>
              && Apply(s, e).result.value == s.replicaCounter + 1 == Apply(s, e).state.replicaCounter
              && s.replicaCounter + 1 in Apply(s, e).state.replicas
    ensures e.cmd.ShardPost? && Apply(s, e).result.data == "" ==>
              && Apply(s, e).result.value == s.shardCounter + 1 == Apply(s, e).state.shardCounter
              && s.shardCounter + 1 in Apply(s, e).state.shards
  {
  }

  /** The id handed out by a replica post was never a stored id at any earlier point, so no id
      comes back after a delete, restarts included. */
  lemma ReplicaIdFresh(es: seq<Event>, ss: seq<State>, m: nat, j: nat)
    requires IsRun(es, ss) && m <= j < |es|
    requires es[j].Commit? && es[j].entry.cmd.ReplicaPost?
    ensures ResultAt(es, ss, j).value in ss[j + 1].replicas
    ensures forall r :: r in ss[m].replicas ==> r < ResultAt(es, ss, j).value
  {
    Reachable(es, ss, j);
    Reachable(es, ss, m);
    assert StepAt(es, ss, j);
    PostAdvances(ss[j], es[j].entry);
    CountersMonotone(es, ss, m, j);
  }

  lemma ReplicaIdsIncrease(es: seq<Event>, ss: seq<State>, i: nat, j: nat)
    requires IsRun(es, ss) && i < j < |es|
    requires es[i].Commit? && es[i].entry.cmd.ReplicaPost?
    requires es[j].Commit? && es[j].entry.cmd.ReplicaPost?
    ensures ResultAt(es, ss, i).value < ResultAt(es, ss, j).value
  {
    ReplicaIdFresh(es, ss, i, i);
    ReplicaIdFresh(es, ss, i + 1, j);
  }

  /******* Restarts that keep the tables *******/

  /** All but the name index is the same. */
  ghost predicate SameTables(s: State, t: State) {
    t == s.(names := t.names)
  }

  ghost predicate RestartsKeep(es: seq<Event>, ss: seq<State>, i: nat, j: nat)
    requires |ss| == |es| + 1 && j <= |es|
  {
    forall m :: i <= m < j && es[m].Restart? ==> SameTables(ss[m], ss[m + 1])
  }

  /** The step of a registry whose restarts keep the tables. */
  ghost predicate Stepped(s: State, event: Event, t: State) {
    match event
    case Restart(_) => SameTables(s, t) && NamesSound(t)
    case Commit(e) => Apply(s, e).Next? && Apply(s, e).state == t
  }

  lemma KeptStep(es: seq<Event>, ss: seq<State>, i: nat)
    requires IsRun(es, ss) && i < |es| && (es[i].Restart? ==> SameTables(ss[i], ss[i + 1]))
    ensures Stepped(ss[i], es[i], ss[i + 1])
  {
    assert StepAt(es, ss, i);
    RunLedger(es, ss, i + 1);
  }

  /** What such a step does to counters and stamps. */
  ghost predicate Grows(s: State, t: State) {
    && s.index <= t.index
    && s.replicaCounter <= t.replicaCounter
    && s.shardCounter <= t.shardCounter
    && (forall h :: h in t.hosts ==>
          if h in s.hosts
          then t.hosts[h].created == s.hosts[h].created && t.hosts[h].updated >= s.hosts[h].updated
          else t.hosts[h].updated > s.index)
    && (forall k :: k in t.shards ==>
          if k in s.shards
          then t.shards[k].created == s.shards[k].created && t.shards[k].updated >= s.shards[k].updated
          else t.shards[k].updated > s.index)
  }

  lemma StepGrows(s: State, e: Entry)
    requires Inv(s) && Fits(s, e) && Apply(s, e).Next?
    ensures Grows(s, Apply(s, e).state)
    ensures Apply(s, e).state.index <= e.index
  {
    CommandChange(s, e);
  }

  lemma RunGrows(es: seq<Event>, ss: seq<State>, i: nat)
    requires IsRun(es, ss) && i < |es| && (es[i].Restart? ==> SameTables(ss[i], ss[i + 1]))
    ensures Grows(ss[i], ss[i + 1])
  {
    Reachable(es, ss, i);
    KeptStep(es, ss, i);
    if es[i].Commit? {
      StepGrows(ss[i], es[i].entry);
    }
  }

  lemma ShardCounterStep(es: seq<Event>, ss: seq<State>, i: nat)
    requires IsRun(es, ss) && i < |es| && (es[i].Restart? ==> SameTables(ss[i], ss[i + 1]))
    ensures ss[i].shardCounter <= ss[i + 1].shardCounter
  {
    RunGrows(es, ss, i);
  }

  lemma {:induction false} ShardCounterMonotone(es: seq<Event>, ss: seq<State>, i: nat, j: nat)
    requires IsRun(es, ss) && i <= j <= |es| && RestartsKeep(es, ss, i, j)
    ensures ss[i].shardCounter <= ss[j].shardCounter
    decreases j
  {
    if i < j {
      ShardCounterMonotone(es, ss, i, j - 1);
      ShardCounterStep(es, ss, j - 1);
    }
  }

  /** A shard id is above all earlier ones, for a post that is not refused because of its name, as long
      as no restart in between loses a post. */
  lemma ShardIdFresh(es: seq<Event>, ss: seq<State>, m: nat, j: nat)
    requires IsRun(es, ss) && m <= j < |es| && RestartsKeep(es, ss, m, j)
    requires es[j].Commit? && es[j].entry.cmd.ShardPost? && ResultAt(es, ss, j).data == ""
    ensures ResultAt(es, ss, j).value in ss[j + 1].shards
    ensures forall k :: k in ss[m].shards ==> k < ResultAt(es, ss, j).value
  {
    Reachable(es, ss, j);
    Reachable(es, ss, m);
    assert StepAt(es, ss, j);
    PostAdvances(ss[j], es[j].entry);
    ShardCounterMonotone(es, ss, m, j);
  }

  lemma NewShardRow(s: State, e: Entry, k: nat)
    requires Inv(s) && Fits(s, e) && Apply(s, e).Next?
    requires k !in s.shards && k in Apply(s, e).state.shards
    ensures || (e.cmd.ShardPost? && Apply(s, e).result == Result(k, ""))
            || (e.cmd.ShardPut? && k == 0 == s.shardCounter)
  {
  }

  /** Once any shard has been posted, a shard row can only appear through a post. */
  lemma ShardsComeFromPosts(es: seq<Event>, ss: seq<State>, i: nat, j: nat, k: nat)
    requires IsRun(es, ss) && i < j < |es| && RestartsKeep(es, ss, i, j + 1)
    requires es[i].Commit? && es[i].entry.cmd.ShardPost? && ResultAt(es, ss, i).data == ""
    requires k in ss[j + 1].shards && k !in ss[j].shards
    ensures es[j].Commit? && es[j].entry.cmd.ShardPost? && ResultAt(es, ss, j) == Result(k, "")
  {
    Reachable(es, ss, i);
    Reachable(es, ss, j);
    assert StepAt(es, ss, i);
    PostAdvances(ss[i], es[i].entry);
    ShardCounterMonotone(es, ss, i + 1, j);
    assert StepAt(es, ss, j);
    if es[j].Commit? {
      NewShardRow(ss[j], es[j].entry, k);
    }
  }

  /******* Stamps over a run *******/

  ghost predicate Growing(ss: seq<State>, from: nat, to: nat) {
    && to < |ss|
    && (forall i :: from <= i <= to ==> Stamped(ss[i]))
    && (forall i, j :: from <= i && j == i + 1 <= to ==> Grows(ss[i], ss[j]))
  }

  lemma RunsGrow(es: seq<Event>, ss: seq<State>, from: nat, to: nat)
    requires IsRun(es, ss) && from <= to <= |es| && RestartsKeep(es, ss, from, to)
    ensures Growing(ss, from, to)
  {
    forall i | from <= i <= to ensures Stamped(ss[i]) { Reachable(es, ss, i); }
    forall i, j | from <= i && j == i + 1 <= to ensures Grows(ss[i], ss[j]) { RunGrows(es, ss, i); }
  }

  lemma {:induction false} IndexGrows(ss: seq<State>, i: nat, j: nat)
    requires i <= j && Growing(ss, i, j)
    ensures ss[i].index <= ss[j].index
    decreases j
  {
    if i < j {
      IndexGrows(ss, i, j - 1);
      assert Grows(ss[j - 1], ss[j]);
    }
  }

  lemma {:induction false} HostStampsGrow(ss: seq<State>, i: nat, j: nat, h: string)
    requires i <= j && Growing(ss, i, j)
    requires h in ss[i].hosts && h in ss[j].hosts
    ensures ss[i].hosts[h].updated <= ss[j].hosts[h].updated
    ensures (forall m :: i <= m <= j ==> h in ss[m].hosts) ==>
              ss[i].hosts[h].created == ss[j].hosts[h].created
    decreases j
  {
    if i < j {
      assert Grows(ss[j - 1], ss[j]);
      if h in ss[j - 1].hosts {
        HostStampsGrow(ss, i, j - 1, h);
      } else {
        IndexGrows(ss, i, j - 1);
      }
    }
  }

  lemma {:induction false} ShardStampsGrow(ss: seq<State>, i: nat, j: nat, k: nat)
    requires i <= j && Growing(ss, i, j)
    requires k in ss[i].shards && k in ss[j].shards
    ensures ss[i].shards[k].updated <= ss[j].shards[k].updated
    ensures (forall m :: i <= m <= j ==> k in ss[m].shards) ==>
              ss[i].shards[k].created == ss[j].shards[k].created
    decreases j
  {
    if i < j {
      assert Grows(ss[j - 1], ss[j]);
      if k in ss[j - 1].shards {
        ShardStampsGrow(ss, i, j - 1, k);
      } else {
        IndexGrows(ss, i, j - 1);
      }
    }
  }

  /** While restarts keep the tables, update stamps of hosts and shards never decrease, even across a delete and a new put, and
      creation stamps are constant for as long as the row lives. */
  lemma StampsOverRun(es: seq<Event>, ss: seq<State>, i: nat, j: nat)
    requires IsRun(es, ss) && i <= j <= |es| && RestartsKeep(es, ss, i, j)
    ensures forall h :: h in ss[i].hosts && h in ss[j].hosts ==>
              && ss[i].hosts[h].updated <= ss[j].hosts[h].updated
              && ((forall m :: i <= m <= j ==> h in ss[m].hosts) ==>
                    ss[i].hosts[h].created == ss[j].hosts[h].created)
    ensures forall k :: k in ss[i].shards && k in ss[j].shards ==>
              && ss[i].shards[k].updated <= ss[j].shards[k].updated
              && ((forall m :: i <= m <= j ==> k in ss[m].shards) ==>
                    ss[i].shards[k].created == ss[j].shards[k].created)
  {
    RunsGrow(es, ss, i, j);
    forall h | h in ss[i].hosts && h in ss[j].hosts
      ensures && ss[i].hosts[h].updated <= ss[j].hosts[h].updated
              && ((forall m :: i <= m <= j ==> h in ss[m].hosts) ==>
                    ss[i].hosts[h].created == ss[j].hosts[h].created)
    { HostStampsGrow(ss, i, j, h); }
    forall k | k in ss[i].shards && k in ss[j].shards
      ensures && ss[i].shards[k].updated <= ss[j].shards[k].updated
              && ((forall m :: i <= m <= j ==> k in ss[m].shards) ==>
                    ss[i].shards[k].created == ss[j].shards[k].created)
    { ShardStampsGrow(ss, i, j, k); }
  }
}
