/**
 The cluster registry as a value: the host, shard and replica tables, the key set of the unique
 shard name index, the id counters and the applied index, together with the pure transition
 function that every replica of the prime shard runs on each committed log entry.
 */
module Registry {

  /** One past the largest 64-bit id or log index. */
  const U64_LIMIT: nat := 0x1_0000_0000_0000_0000

  const BOOTSTRAPPING := "bootstrapping"
  const JOINING := "joining"
  const ACTIVE := "active"

  /** A tag map; a nil map can be read and deleted from, but writing a key into it panics. */
  datatype TagMap = NilTags | Tags(entries: map<string, string>) {
    function Entries(): map<string, string> {
      if NilTags? then map[] else entries
    }
  }

  datatype Host = Host(
    id: string, created: nat, updated: nat, status: string, tags: TagMap,
    apiAddress: string, raftAddress: string, shardTypes: seq<string>)

  datatype Shard = Shard(
    id: nat, created: nat, updated: nat, status: string, tags: TagMap,
    leader: nat, name: string, term: nat, shardType: string)

  datatype Replica = Replica(
    id: nat, created: nat, updated: nat, status: string, tags: TagMap,
    hostId: string, isNonVoting: bool, isWitness: bool, shardId: nat)

  datatype State = State(
    hosts: map<string, Host>,
    shards: map<nat, Shard>,
    replicas: map<nat, Replica>,
    names: set<string>,
    index: nat,
    lastHost: string,
    shardCounter: nat,
    replicaCounter: nat)

  const EMPTY := State(map[], map[], map[], {}, 0, "", 0, 0)

  datatype TagOp = TagsSet | TagsSetNX | TagsRemove

  /** Commands after decoding. `Unrecognized` decodes but has an unknown type or action;
      `Malformed` does not decode at all. */
  datatype Command =
    | HostPut(host: Host)
    | HostDel(hostId: string)
    | HostTags(op: TagOp, hostId: string, tags: TagMap)
    | ShardPost(shard: Shard)
    | ShardTouch(shardId: nat)
    | ShardPut(shard: Shard)
    | ShardStatus(shardId: nat, status: string)
    | ShardLeader(shardId: nat, leader: nat, term: nat)
    | ShardDel(shardId: nat)
    | ShardTags(op: TagOp, shardId: nat, tags: TagMap)
    | ReplicaPost(replica: Replica)
    | ReplicaStatus(replicaId: nat, status: string)
    | ReplicaPut(replica: Replica)
    | ReplicaDel(replicaId: nat)
    | ReplicaTags(op: TagOp, replicaId: nat, tags: TagMap)
    | Unrecognized
    | Malformed

  datatype Entry = Entry(index: nat, cmd: Command)

  datatype Result = Result(value: nat, data: string)

  const NONE := Result(0, "")

  /** Outcome of one entry; a panic takes the process down and is terminal. */
  datatype Step = Next(state: State, result: Result) | Crash

  /******* Tag maps *******/

  datatype TagWrite = Wrote(tags: TagMap, written: bool) | NilWrite

  function WriteTags(op: TagOp, dst: TagMap, src: map<string, string>): TagWrite {
    match op
    case TagsSet =>
      if src == map[] then Wrote(dst, false)
      else if dst.NilTags? then NilWrite
      else Wrote(Tags(dst.entries + src), true)
    case TagsSetNX =>
      if src.Keys <= dst.Entries().Keys then Wrote(dst, false)
      else if dst.NilTags? then NilWrite
      else Wrote(Tags(src + dst.entries), true)
    case TagsRemove =>
      if src == map[] then Wrote(dst, false)
      else if dst.NilTags? then Wrote(dst, true)
      else Wrote(Tags(dst.entries - src.Keys), true)
  }

  /******* Tables *******/

  function OnHost(replicas: map<nat, Replica>, host: string): set<nat> {
    set r | r in replicas && replicas[r].hostId == host
  }

  function OfShard(replicas: map<nat, Replica>, shard: nat): set<nat> {
    set r | r in replicas && replicas[r].shardId == shard
  }

  function HostsOf(replicas: map<nat, Replica>, ids: set<nat>): set<string> {
    set r | r in ids && r in replicas :: replicas[r].hostId
  }

  function ShardsOf(replicas: map<nat, Replica>, ids: set<nat>): set<nat> {
    set r | r in ids && r in replicas :: replicas[r].shardId
  }

  /** Ids of the voting replicas of a shard. */
  function Members(replicas: map<nat, Replica>, shard: nat): set<nat> {
    set r | r in replicas && replicas[r].shardId == shard && !replicas[r].isNonVoting
  }

  /** Names that the given rows contribute to the name index; the empty name is not indexed. */
  function NamesIn(shards: map<nat, Shard>, ids: set<nat>): set<string> {
    set k | k in ids && k in shards && shards[k].name != "" :: shards[k].name
  }

  function NamesOf(shards: map<nat, Shard>): set<string> {
    NamesIn(shards, shards.Keys)
  }

  /** Inserting a row drops the index entry of the row's former name, whichever row owns it now. */
  function PutShard(s: State, shard: Shard): State {
    var kept := if shard.id in s.shards && s.shards[shard.id].name != shard.name
                then s.names - {s.shards[shard.id].name} else s.names;
    s.(shards := s.shards[shard.id := shard],
       names := if shard.name == "" then kept else kept + {shard.name})
  }

  function DropShard(s: State, id: nat): State
    requires id in s.shards
  {
    s.(shards := s.shards - {id}, names := s.names - {s.shards[id].name})
  }

  /** Stamp the stored shards among `ids`; each is inserted again, and so is its name. */
  function TouchShards(s: State, ids: set<nat>, index: nat): State {
    s.(shards := map k | k in s.shards ::
                   if k in ids then s.shards[k].(updated := index) else s.shards[k],
       names := s.names + NamesIn(s.shards, ids))
  }

  function TouchHosts(s: State, ids: set<string>, index: nat): State {
    s.(hosts := map h | h in s.hosts ::
                  if h in ids then s.hosts[h].(updated := index) else s.hosts[h])
  }

  /** Touching a host that is not stored panics. */
  function Touched(s: State, hosts: set<string>, index: nat, result: Result): Step {
    if hosts <= s.hosts.Keys then Next(TouchHosts(s, hosts, index), result) else Crash
  }

  /** Ids are 64-bit and wrap. */
  function Incr(counter: nat): nat {
    (counter + 1) % U64_LIMIT
  }

  /******* Host commands *******/

  function ApplyHostPut(s: State, host: Host, index: nat): Step {
    var touched := TouchShards(s, ShardsOf(s.replicas, OnHost(s.replicas, host.id)), index);
    if host.id in s.hosts then
      var was := s.hosts[host.id];
      match WriteTags(TagsSetNX, host.tags, was.tags.Entries())
      case NilWrite => Crash
      case Wrote(tags, _) =>
        var row := host.(created := was.created, updated := index, tags := tags);
        Next(touched.(hosts := s.hosts[host.id := row]), Result(1, ""))
    else
      var row := host.(created := index, updated := index);
      Next(touched.(hosts := s.hosts[host.id := row], lastHost := host.id), Result(1, ""))
  }

  function ApplyHostDel(s: State, host: string, index: nat): Step {
    if host !in s.hosts then Next(s, NONE)
    else
      var gone := OnHost(s.replicas, host);
      var touched := TouchShards(s, ShardsOf(s.replicas, gone), index);
      Next(touched.(hosts := s.hosts - {host}, replicas := s.replicas - gone), Result(1, ""))
  }

  function ApplyHostTags(s: State, op: TagOp, host: string, tags: TagMap, index: nat): Step {
    if host !in s.hosts then Next(s, NONE)
    else match WriteTags(op, s.hosts[host].tags, tags.Entries())
      case NilWrite => Crash
      case Wrote(tags', written) =>
        if !written then Next(s, NONE)
        else
          var touched := TouchShards(s, ShardsOf(s.replicas, OnHost(s.replicas, host)), index);
          Next(touched.(hosts := s.hosts[host := s.hosts[host].(tags := tags')]), Result(1, ""))
  }

  /******* Shard commands *******/

  function ApplyShardPost(s: State, shard: Shard, index: nat): Step {
    if shard.name != "" && shard.name in s.names then
      Next(s, Result(0, "Shard already exists: " + shard.name))
    else
      var id := Incr(s.shardCounter);
      var row := shard.(id := id, created := index, updated := index);
      Next(PutShard(s.(shardCounter := id), row), Result(id, ""))
  }

  function ApplyShardTouch(s: State, id: nat, index: nat): Step {
    Touched(TouchShards(s, {id}, index), HostsOf(s.replicas, OfShard(s.replicas, id)), index,
            Result(id, ""))
  }

  /** Store a shard row, then touch the hosts of its replicas. */
  function StoreShard(s: State, row: Shard, index: nat, value: nat): Step {
    Touched(PutShard(s, row), HostsOf(s.replicas, OfShard(s.replicas, row.id)), index,
            Result(value, ""))
  }

  function ApplyShardPut(s: State, shard: Shard, index: nat): Step {
    if shard.id in s.shards then
      var was := s.shards[shard.id];
      match WriteTags(TagsSetNX, shard.tags, was.tags.Entries())
      case NilWrite => Crash
      case Wrote(tags, _) =>
        var row := shard.(created := was.created, updated := index, tags := tags);
        StoreShard(s, row, index, shard.id)
    else if shard.id == 0 && s.shardCounter == 0 then
      var row := shard.(created := index, updated := index);
      StoreShard(s, row, index, shard.id)
    else
      Next(s, NONE)
  }

  function ApplyShardStatus(s: State, id: nat, status: string, index: nat): Step {
    if id !in s.shards then Next(s, NONE)
    else
      var row := s.shards[id].(status := status, updated := index);
      StoreShard(s, row, index, 1)
  }

  function ApplyShardLeader(s: State, id: nat, leader: nat, term: nat, index: nat): Step {
    if id !in s.shards then Next(s, NONE)
    else
      var row := s.shards[id].(leader := leader, term := term, updated := index);
      Next(PutShard(s, row), Result(1, ""))
  }

  function ApplyShardDel(s: State, id: nat, index: nat): Step {
    if id !in s.shards then Next(s, NONE)
    else
      var gone := OfShard(s.replicas, id);
      var hosts := HostsOf(s.replicas, gone);
      Touched(DropShard(s.(replicas := s.replicas - gone), id), hosts, index, Result(1, ""))
  }

  function ApplyShardTags(s: State, op: TagOp, id: nat, tags: TagMap, index: nat): Step {
    if id !in s.shards then Next(s, NONE)
    else match WriteTags(op, s.shards[id].tags, tags.Entries())
      case NilWrite => Crash
      case Wrote(tags', written) =>
        if !written then Next(s, NONE)
        else
          var row := s.shards[id].(tags := tags');
          StoreShard(s, row, index, 1)
  }

  /******* Replica commands *******/

  /** Store a replica row, then touch its host and its shard. */
  function StoreReplica(s: State, row: Replica, index: nat, value: nat): Step {
    var stored := s.(replicas := s.replicas[row.id := row]);
    Touched(TouchShards(stored, {row.shardId}, index), {row.hostId}, index, Result(value, ""))
  }

  function ApplyReplicaPost(s: State, replica: Replica, index: nat): Step {
    var id := Incr(s.replicaCounter);
    var status := if !replica.isNonVoting && |Members(s.replicas, replica.shardId)| < 3
                  then BOOTSTRAPPING else JOINING;
    var row := replica.(id := id, created := index, updated := index, status := status);
    StoreReplica(s.(replicaCounter := id), row, index, id)
  }

  function ApplyReplicaStatus(s: State, id: nat, status: string, index: nat): Step {
    if id !in s.replicas then Next(s, NONE)
    else StoreReplica(s, s.replicas[id].(status := status), index, 1)
  }

  function ApplyReplicaPut(s: State, replica: Replica, index: nat): Step {
    if replica.id !in s.replicas then Next(s, NONE)
    else
      var was := s.replicas[replica.id];
      match WriteTags(TagsSetNX, replica.tags, was.tags.Entries())
      case NilWrite => Crash
      case Wrote(tags, _) =>
        StoreReplica(s, replica.(created := was.created, updated := index, tags := tags), index, 1)
  }

  function ApplyReplicaDel(s: State, id: nat, index: nat): Step {
    if id !in s.replicas then Next(s, NONE)
    else
      var was := s.replicas[id];
      var touched := TouchShards(s.(replicas := s.replicas - {id}), {was.shardId}, index);
      Touched(touched, {was.hostId}, index, Result(1, ""))
  }

  function ApplyReplicaTags(s: State, op: TagOp, id: nat, tags: TagMap, index: nat): Step {
    if id !in s.replicas then Next(s, NONE)
    else match WriteTags(op, s.replicas[id].tags, tags.Entries())
      case NilWrite => Crash
      case Wrote(tags', written) =>
        if !written then Next(s, NONE)
        else StoreReplica(s, s.replicas[id].(tags := tags'), index, 1)
  }

  /******* The transition function *******/

  function ApplyCommand(s: State, cmd: Command, index: nat): Step {
    match cmd
    case HostPut(host) => ApplyHostPut(s, host, index)
    case HostDel(host) => ApplyHostDel(s, host, index)
    case HostTags(op, host, tags) => ApplyHostTags(s, op, host, tags, index)
    case ShardPost(shard) => ApplyShardPost(s, shard, index)
    case ShardTouch(id) => ApplyShardTouch(s, id, index)
    case ShardPut(shard) => ApplyShardPut(s, shard, index)
    case ShardStatus(id, status) => ApplyShardStatus(s, id, status, index)
    case ShardLeader(id, leader, term) => ApplyShardLeader(s, id, leader, term, index)
    case ShardDel(id) => ApplyShardDel(s, id, index)
    case ShardTags(op, id, tags) => ApplyShardTags(s, op, id, tags, index)
    case ReplicaPost(replica) => ApplyReplicaPost(s, replica, index)
    case ReplicaStatus(id, status) => ApplyReplicaStatus(s, id, status, index)
    case ReplicaPut(replica) => ApplyReplicaPut(s, replica, index)
    case ReplicaDel(id) => ApplyReplicaDel(s, id, index)
    case ReplicaTags(op, id, tags) => ApplyReplicaTags(s, op, id, tags, index)
    case Unrecognized => Next(s, NONE)
    case Malformed => Next(s, NONE)
  }

  /** A malformed entry does not even advance the applied index. */
  function Apply(s: State, e: Entry): Step {
    match ApplyCommand(s, e.cmd, e.index)
    case Crash => Crash
    case Next(s', result) =>
      Next(if e.cmd.Malformed? then s' else s'.(index := e.index), result)
  }
}
