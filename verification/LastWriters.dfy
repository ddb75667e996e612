/**
 What a row of the registry holds, told by the log alone: every field has the value that the last entry
 to speak about it gave, and a row is there exactly if the last entry to create or remove it created it.
 */
module LastWriters {
  import opened Numerals
  import opened Registry
  import opened RegistryRuns

  /******* The last word *******/

  /** What an entry says about something, given the registry it is applied to and the answer it gets. */
  type Said<V> = (State, Entry, Result) -> Option<V>

  ghost function SaidAt<V>(said: Said<V>, es: seq<Event>, ss: seq<State>, m: nat): Option<V>
    requires |ss| == |es| + 1 && m < |es|
  {
    if es[m].Commit? && Apply(ss[m], es[m].entry).Next?
    then said(ss[m], es[m].entry, Apply(ss[m], es[m].entry).result) else None
  }

  /** The last word among the first `i` events. */
  ghost function LastSaid<V>(said: Said<V>, es: seq<Event>, ss: seq<State>, i: nat): Option<V>
    requires |ss| == |es| + 1 && i <= |es|
  {
    if i == 0 then None
    else if SaidAt(said, es, ss, i - 1).Some? then SaidAt(said, es, ss, i - 1)
    else LastSaid(said, es, ss, i - 1)
  }

  /** The event at `m` says so, and no event from then to `i` says anything. */
  ghost predicate LastAt<V>(said: Said<V>, es: seq<Event>, ss: seq<State>, i: nat, m: nat, v: V)
    requires |ss| == |es| + 1 && i <= |es|
  {
    && m < i && SaidAt(said, es, ss, m) == Some(v)
    && (forall j {:trigger SaidAt(said, es, ss, j)} :: m < j < i ==> SaidAt(said, es, ss, j).None?)
  }

  lemma {:induction false} LastSaidExactly<V>(said: Said<V>, es: seq<Event>, ss: seq<State>, i: nat, v: V)
    requires |ss| == |es| + 1 && i <= |es|
    ensures LastSaid(said, es, ss, i) == Some(v) <==> exists m :: LastAt(said, es, ss, i, m, v)
  {
    if i > 0 {
      var h := i - 1;
      LastSaidExactly(said, es, ss, h, v);
      if SaidAt(said, es, ss, h).Some? {
        if SaidAt(said, es, ss, h) == Some(v) {
          assert LastAt(said, es, ss, i, h, v);
        }
      } else {
        if m :| LastAt(said, es, ss, h, m, v) {
          assert LastAt(said, es, ss, i, m, v);
        }
        if m :| LastAt(said, es, ss, i, m, v) {
          assert LastAt(said, es, ss, h, m, v);
        }
      }
    }
  }

  /** The new value is what was said, or else the old one, which must have been there. */
  predicate Picks<V(==)>(said: Option<V>, kept: bool, was: V, now: V) {
    if said.Some? then now == said.value else kept && now == was
  }

  ghost predicate Obeys<V>(said: Said<V>, live: State -> bool, field: State -> V, s: State, e: Entry) {
    Inv(s) && Fits(s, e) && Apply(s, e).Next? && live(Apply(s, e).state) ==>
      Picks(said(s, e, Apply(s, e).result), live(s), field(s), field(Apply(s, e).state))
  }

  /** A field that obeys each entry has the last word that was said about it. */
  lemma {:induction false} Told<V>(said: Said<V>, live: State -> bool, field: State -> V, es: seq<Event>,
                                   ss: seq<State>, i: nat)
    requires IsRun(es, ss) && i <= |es| && RestartsKeep(es, ss, 0, i)
    requires forall s, e {:trigger Obeys(said, live, field, s, e)} :: Obeys(said, live, field, s, e)
    requires forall s: State, names: set<string> ::
               live(s.(names := names)) == live(s) && field(s.(names := names)) == field(s)
    ensures live(ss[i]) && !live(EMPTY) ==> LastSaid(said, es, ss, i) == Some(field(ss[i]))
    ensures live(ss[i]) && live(EMPTY) ==>
              field(ss[i]) == match LastSaid(said, es, ss, i) { case Some(v) => v case None => field(EMPTY) }
  {
    if i > 0 {
      Told(said, live, field, es, ss, i - 1);
      Reachable(es, ss, i - 1);
      assert StepAt(es, ss, i - 1);
      match es[i - 1]
      case Commit(e) => assert Obeys(said, live, field, ss[i - 1], e);
      case Restart(_) => assert ss[i] == ss[i - 1].(names := ss[i].names);
    }
  }

  /******* Tags *******/

  function Lookup(tags: TagMap, x: string): Option<string> {
    if x in tags.Entries() then Some(tags.Entries()[x]) else None
  }

  /** What an operation on a row's tags says about one of them. */
  function TagOpSaid(op: TagOp, has: TagMap, tags: TagMap, x: string): Option<Option<string>> {
    if x !in tags.Entries() then None
    else
      match op
      case TagsSet => Some(Lookup(tags, x))
      case TagsSetNX => if x in has.Entries() then None else Some(Lookup(tags, x))
      case TagsRemove => Some(None)
  }

  /** A row that is put brings its tags and leaves the others of a row already there. */
  function TagPutSaid(stored: bool, tags: TagMap, x: string): Option<Option<string>> {
    if x in tags.Entries() || !stored then Some(Lookup(tags, x)) else None
  }

  /** The operation has something to do. */
  predicate Effective(op: TagOp, has: TagMap, tags: TagMap) {
    if op.TagsSetNX? then exists x :: x in tags.Entries() && x !in has.Entries() else tags.Entries() != map[]
  }

  lemma EffectiveWrites(op: TagOp, has: TagMap, tags: TagMap)
    requires WriteTags(op, has, tags.Entries()).Wrote?
    ensures WriteTags(op, has, tags.Entries()).written <==> Effective(op, has, tags)
  {
  }

  lemma TagOpTells(op: TagOp, has: TagMap, tags: TagMap, x: string)
    requires WriteTags(op, has, tags.Entries()).Wrote?
    ensures var now := WriteTags(op, has, tags.Entries()).tags;
            && Picks(TagOpSaid(op, has, tags, x), true, Lookup(has, x), Lookup(now, x))
            && now.Tags? == has.Tags?
  {
  }

  /** Putting a row merges the other way round. */
  lemma TagPutTells(was: TagMap, tags: TagMap, x: string)
    requires WriteTags(TagsSetNX, tags, was.Entries()).Wrote?
    ensures var now := WriteTags(TagsSetNX, tags, was.Entries()).tags;
            && Picks(TagPutSaid(true, tags, x), true, Lookup(was, x), Lookup(now, x))
            && now.Tags? == tags.Tags?
  {
  }

  /******* Rows *******/

  /** A field's value. */
  datatype Value = Truth(truth: bool) | Number(number: nat) | Text(text: string) | Texts(texts: seq<string>)
                 | Tag(tag: Option<string>)

  /** Some replica of the shard is on the host. */
  ghost predicate Seats(s: State, host: string, k: nat) {
    exists r :: r in s.replicas && s.replicas[r].hostId == host && s.replicas[r].shardId == k
  }

  lemma SeatsSets(s: State, host: string, k: nat)
    ensures Seats(s, host, k) <==> k in ShardsOf(s.replicas, OnHost(s.replicas, host))
    ensures Seats(s, host, k) <==> host in HostsOf(s.replicas, OfShard(s.replicas, k))
  {
    if r :| r in s.replicas && s.replicas[r].hostId == host && s.replicas[r].shardId == k {
      assert r in OnHost(s.replicas, host) && r in OfShard(s.replicas, k);
    }
  }

  ghost function Always(): State -> bool {
    s => true
  }

  /******* Shards *******/

  datatype ShardTopic = ShardName | ShardType | ShardStatus | ShardLeader | ShardTerm | ShardBirth | ShardStamp
                      | ShardHasTags | ShardTag(key: string)

  function ShardField(topic: ShardTopic, row: Shard): Value {
    match topic
    case ShardName => Text(row.name)
    case ShardType => Text(row.shardType)
    case ShardStatus => Text(row.status)
    case ShardLeader => Number(row.leader)
    case ShardTerm => Number(row.term)
    case ShardBirth => Number(row.created)
    case ShardStamp => Number(row.updated)
    case ShardHasTags => Truth(row.tags.Tags?)
    case ShardTag(x) => Tag(Lookup(row.tags, x))
  }

  /** A row that is brought speaks about all fields, but for a stored row not about its birth or about tags
      that it lacks. */
  function ShardBrings(topic: ShardTopic, row: Shard, index: nat, stored: bool): Option<Value> {
    match topic
    case ShardBirth => if stored then None else Some(Number(index))
    case ShardStamp => Some(Number(index))
    case ShardTag(x) => if stored && x !in row.tags.Entries() then None else Some(Tag(Lookup(row.tags, x)))
    case _ => Some(ShardField(topic, row))
  }

  /** What an entry says about a field of shard `k`. */
  ghost function ShardSaid(k: nat, topic: ShardTopic, s: State, e: Entry, result: Result): Option<Value> {
    match e.cmd
    case ShardPut(row) => if row.id == k then ShardBrings(topic, row, e.index, k in s.shards) else None
    case ShardPost(row) => if result == Result(k, "") then ShardBrings(topic, row, e.index, false) else None
    case ShardStatus(id, status) =>
      if id == k && topic.ShardStatus? then Some(Text(status)) else ShardStamped(k, topic, s, e)
    case ShardLeader(id, leader, term) =>
      if id == k && topic.ShardLeader? then Some(Number(leader))
      else if id == k && topic.ShardTerm? then Some(Number(term))
      else ShardStamped(k, topic, s, e)
    case ShardTags(op, id, tags) =>
      if id == k && k in s.shards && topic.ShardTag? then TagValue(TagOpSaid(op, s.shards[k].tags, tags, topic.key))
      else None
    case _ => ShardStamped(k, topic, s, e)
  }

  function TagValue(said: Option<Option<string>>): Option<Value> {
    match said
    case Some(v) => Some(Tag(v))
    case None => None
  }

  ghost function ShardStamped(k: nat, topic: ShardTopic, s: State, e: Entry): Option<Value> {
    if topic.ShardStamp? && Touches(k, s, e.cmd) then Some(Number(e.index)) else None
  }

  /** Commands about the shard itself, about one of its replicas, or about a host that has one. */
  ghost predicate Touches(k: nat, s: State, cmd: Command) {
    match cmd
    case HostPut(row) => Seats(s, row.id, k)
    case HostDel(h) => Seats(s, h, k)
    case HostTags(op, h, tags) => h in s.hosts && Effective(op, s.hosts[h].tags, tags) && Seats(s, h, k)
    case ShardTouch(id) => id == k
    case ShardStatus(id, _) => id == k
    case ShardLeader(id, _, _) => id == k
    case ReplicaPost(row) => row.shardId == k
    case ReplicaStatus(r, _) => r in s.replicas && s.replicas[r].shardId == k
    case ReplicaPut(row) => row.id in s.replicas && row.shardId == k
    case ReplicaDel(r) => r in s.replicas && s.replicas[r].shardId == k
    case ReplicaTags(op, r, tags) =>
      r in s.replicas && Effective(op, s.replicas[r].tags, tags) && s.replicas[r].shardId == k
    case _ => false
  }

  /** Whether the shard is there afterwards. */
  function ShardStored(k: nat, s: State, e: Entry, result: Result): Option<bool> {
    match e.cmd
    case ShardPut(row) =>
      if row.id == k && (k in s.shards || (k == 0 && s.shardCounter == 0)) then Some(true) else None
    case ShardPost(_) => if result == Result(k, "") then Some(true) else None
    case ShardDel(id) => if id == k then Some(false) else None
    case _ => None
  }

  const NO_SHARD := Shard(0, 0, 0, "", NilTags, 0, "", 0, "")

  function ShardAt(s: State, k: nat): Shard {
    if k in s.shards then s.shards[k] else NO_SHARD
  }

  ghost predicate ShardObeys(k: nat, topic: ShardTopic, s: State, t: State, e: Entry, result: Result) {
    k in t.shards ==>
      Picks(ShardSaid(k, topic, s, e, result), k in s.shards, ShardField(topic, ShardAt(s, k)),
            ShardField(topic, ShardAt(t, k)))
  }

  ghost predicate ShardKept(k: nat, s: State, t: State, e: Entry, result: Result) {
    Picks(ShardStored(k, s, e, result), true, k in s.shards, k in t.shards)
  }

  /** Exactly the given shards are stamped, and nothing else changes. */
  ghost predicate ShardsStamped(s: State, t: State, cmd: Command, index: nat) {
    && t.shards.Keys == s.shards.Keys
    && forall k :: k in s.shards ==>
         t.shards[k] == s.shards[k].(updated := if Touches(k, s, cmd) then index else s.shards[k].updated)
  }

  lemma HostCommandShards(s: State, cmd: Command, index: nat)
    requires Inv(s) && (cmd.HostPut? || cmd.HostDel? || cmd.HostTags? || cmd.Unrecognized? || cmd.Malformed?)
    requires ApplyCommand(s, cmd, index).Next?
    ensures ShardsStamped(s, ApplyCommand(s, cmd, index).state, cmd, index)
  {
    forall h, k ensures Seats(s, h, k) <==> k in ShardsOf(s.replicas, OnHost(s.replicas, h)) {
      SeatsSets(s, h, k);
    }
    if cmd.HostTags? && cmd.hostId in s.hosts {
      EffectiveWrites(cmd.op, s.hosts[cmd.hostId].tags, cmd.tags);
    }
  }

  lemma ReplicaCommandShards(s: State, cmd: Command, index: nat)
    requires Inv(s) && (cmd.ReplicaPost? || cmd.ReplicaPut?) && ApplyCommand(s, cmd, index).Next?
    ensures ShardsStamped(s, ApplyCommand(s, cmd, index).state, cmd, index)
  {
  }

  lemma ReplicaFieldShards(s: State, cmd: Command, index: nat)
    requires Inv(s) && (cmd.ReplicaStatus? || cmd.ReplicaTags?) && ApplyCommand(s, cmd, index).Next?
    ensures ShardsStamped(s, ApplyCommand(s, cmd, index).state, cmd, index)
  {
    if cmd.ReplicaTags? && cmd.replicaId in s.replicas {
      EffectiveWrites(cmd.op, s.replicas[cmd.replicaId].tags, cmd.tags);
    }
  }

  lemma OtherCommandShards(s: State, cmd: Command, index: nat)
    requires cmd.ReplicaDel? || cmd.ShardTouch?
    requires ApplyCommand(s, cmd, index).Next?
    ensures ShardsStamped(s, ApplyCommand(s, cmd, index).state, cmd, index)
  {
  }

  predicate ShardWrites(cmd: Command) {
    cmd.ShardPost? || cmd.ShardPut? || cmd.ShardStatus? || cmd.ShardLeader? || cmd.ShardDel? || cmd.ShardTags?
  }

  lemma StampedShards(k: nat, topic: ShardTopic, s: State, t: State, e: Entry, result: Result)
    requires ShardsStamped(s, t, e.cmd, e.index) && !ShardWrites(e.cmd)
    ensures ShardObeys(k, topic, s, t, e, result) && ShardKept(k, s, t, e, result)
  {
  }

  lemma ShardPutObeys(k: nat, topic: ShardTopic, s: State, e: Entry)
    requires e.cmd.ShardPut? && ApplyCommand(s, e.cmd, e.index).Next?
    ensures var step := ApplyCommand(s, e.cmd, e.index);
            ShardObeys(k, topic, s, step.state, e, step.result) && ShardKept(k, s, step.state, e, step.result)
  {
    var row := e.cmd.shard;
    if row.id == k && k in s.shards {
      TagPutTells(s.shards[k].tags, row.tags, if topic.ShardTag? then topic.key else "");
    }
  }

  lemma ShardPostObeys(k: nat, topic: ShardTopic, s: State, e: Entry)
    requires Inv(s) && Fits(s, e) && e.cmd.ShardPost?
    ensures var step := ApplyCommand(s, e.cmd, e.index);
            && step.Next?
            && ShardObeys(k, topic, s, step.state, e, step.result) && ShardKept(k, s, step.state, e, step.result)
  {
  }

  lemma ShardFieldObeys(k: nat, topic: ShardTopic, s: State, e: Entry)
    requires Keyed(s) && (e.cmd.ShardStatus? || e.cmd.ShardLeader? || e.cmd.ShardDel?)
    requires ApplyCommand(s, e.cmd, e.index).Next?
    ensures var step := ApplyCommand(s, e.cmd, e.index);
            ShardObeys(k, topic, s, step.state, e, step.result) && ShardKept(k, s, step.state, e, step.result)
  {
  }

  lemma ShardTagsObeys(k: nat, topic: ShardTopic, s: State, e: Entry)
    requires Keyed(s) && e.cmd.ShardTags? && ApplyCommand(s, e.cmd, e.index).Next?
    ensures var step := ApplyCommand(s, e.cmd, e.index);
            ShardObeys(k, topic, s, step.state, e, step.result) && ShardKept(k, s, step.state, e, step.result)
  {
    if e.cmd.shardId == k && k in s.shards {
      EffectiveWrites(e.cmd.op, s.shards[k].tags, e.cmd.tags);
      TagOpTells(e.cmd.op, s.shards[k].tags, e.cmd.tags, if topic.ShardTag? then topic.key else "");
    }
  }

  lemma ShardCommandObeys(k: nat, topic: ShardTopic, s: State, e: Entry)
    requires Inv(s) && Fits(s, e) && ApplyCommand(s, e.cmd, e.index).Next?
    ensures var step := ApplyCommand(s, e.cmd, e.index);
            ShardObeys(k, topic, s, step.state, e, step.result) && ShardKept(k, s, step.state, e, step.result)
  {
    var cmd, step := e.cmd, ApplyCommand(s, e.cmd, e.index);
    if cmd.ShardPut? {
      ShardPutObeys(k, topic, s, e);
    } else if cmd.ShardPost? {
      ShardPostObeys(k, topic, s, e);
    } else if cmd.ShardTags? {
      ShardTagsObeys(k, topic, s, e);
    } else if ShardWrites(cmd) {
      ShardFieldObeys(k, topic, s, e);
    } else {
      if cmd.ReplicaDel? || cmd.ShardTouch? {
        OtherCommandShards(s, cmd, e.index);
      } else if cmd.ReplicaPost? || cmd.ReplicaPut? {
        ReplicaCommandShards(s, cmd, e.index);
      } else if cmd.ReplicaStatus? || cmd.ReplicaTags? {
        ReplicaFieldShards(s, cmd, e.index);
      } else {
        HostCommandShards(s, cmd, e.index);
      }
      StampedShards(k, topic, s, step.state, e, step.result);
    }
  }

  ghost function ShardWord(k: nat, topic: ShardTopic): Said<Value> {
    (s, e, result) => ShardSaid(k, topic, s, e, result)
  }

  function ShardStoredWord(k: nat): Said<bool> {
    (s, e, result) => ShardStored(k, s, e, result)
  }

  ghost function HasShard(k: nat): State -> bool {
    (s: State) => k in s.shards
  }

  ghost function ShardFieldOf(k: nat, topic: ShardTopic): State -> Value {
    (s: State) => ShardField(topic, ShardAt(s, k))
  }

  lemma ShardWordObeyed(k: nat, topic: ShardTopic, s: State, e: Entry)
    ensures Obeys(ShardWord(k, topic), HasShard(k), ShardFieldOf(k, topic), s, e)
    ensures Obeys(ShardStoredWord(k), Always(), HasShard(k), s, e)
  {
    if Inv(s) && Fits(s, e) && Apply(s, e).Next? {
      ShardCommandObeys(k, topic, s, e);
      assert Apply(s, e).state.shards == ApplyCommand(s, e.cmd, e.index).state.shards;
    }
  }

  /** Every field of a stored shard has the value that the last entry to speak about it gave: the post or
      put that brought the row, a status, a leader, a tag, or whatever stamped it. */
  lemma ShardsFollowLog(es: seq<Event>, ss: seq<State>, i: nat, k: nat, topic: ShardTopic)
    requires IsRun(es, ss) && i <= |es| && RestartsKeep(es, ss, 0, i) && k in ss[i].shards
    ensures LastSaid(ShardWord(k, topic), es, ss, i) == Some(ShardField(topic, ss[i].shards[k]))
  {
    forall s, e ensures Obeys(ShardWord(k, topic), HasShard(k), ShardFieldOf(k, topic), s, e) {
      ShardWordObeyed(k, topic, s, e);
    }
    Told(ShardWord(k, topic), HasShard(k), ShardFieldOf(k, topic), es, ss, i);
  }

  /** A shard is stored exactly if the last entry to bring or to delete it brought it. */
  lemma ShardStoredExactly(es: seq<Event>, ss: seq<State>, i: nat, k: nat)
    requires IsRun(es, ss) && i <= |es| && RestartsKeep(es, ss, 0, i)
    ensures k in ss[i].shards <==> LastSaid(ShardStoredWord(k), es, ss, i) == Some(true)
  {
    forall s, e ensures Obeys(ShardStoredWord(k), Always(), HasShard(k), s, e) {
      ShardWordObeyed(k, ShardName, s, e);
    }
    Told(ShardStoredWord(k), Always(), HasShard(k), es, ss, i);
  }

  /******* Replicas *******/

  datatype ReplicaTopic = ReplicaHost | ReplicaShard | ReplicaStatus | ReplicaNonVoting | ReplicaWitness | ReplicaBirth
                        | ReplicaStamp | ReplicaHasTags | ReplicaTag(key: string)

  function ReplicaField(topic: ReplicaTopic, row: Replica): Value {
    match topic
    case ReplicaHost => Text(row.hostId)
    case ReplicaShard => Number(row.shardId)
    case ReplicaStatus => Text(row.status)
    case ReplicaNonVoting => Truth(row.isNonVoting)
    case ReplicaWitness => Truth(row.isWitness)
    case ReplicaBirth => Number(row.created)
    case ReplicaStamp => Number(row.updated)
    case ReplicaHasTags => Truth(row.tags.Tags?)
    case ReplicaTag(x) => Tag(Lookup(row.tags, x))
  }

  function ReplicaBrings(topic: ReplicaTopic, row: Replica, index: nat, stored: bool): Option<Value> {
    match topic
    case ReplicaBirth => if stored then None else Some(Number(index))
    case ReplicaStamp => Some(Number(index))
    case ReplicaTag(x) => if stored && x !in row.tags.Entries() then None else Some(Tag(Lookup(row.tags, x)))
    case _ => Some(ReplicaField(topic, row))
  }

  /** The status of a new replica: the first three voting ones of a shard start it, all others join it. */
  function FirstStatus(s: State, row: Replica): string {
    if row.isNonVoting || |Members(s.replicas, row.shardId)| >= 3 then "joining" else "bootstrapping"
  }

  /** What an entry says about a field of replica `r`. Only a put or a post stamps the row itself. */
  function ReplicaSaid(r: nat, topic: ReplicaTopic, s: State, e: Entry, result: Result): Option<Value> {
    match e.cmd
    case ReplicaPut(row) => if row.id == r && r in s.replicas then ReplicaBrings(topic, row, e.index, true) else None
    case ReplicaPost(row) =>
      if result != Result(r, "") then None
      else if topic.ReplicaStatus? then Some(Text(FirstStatus(s, row)))
      else ReplicaBrings(topic, row, e.index, false)
    case ReplicaStatus(id, status) => if id == r && topic.ReplicaStatus? then Some(Text(status)) else None
    case ReplicaTags(op, id, tags) =>
      if id == r && r in s.replicas && topic.ReplicaTag? then TagValue(TagOpSaid(op, s.replicas[r].tags, tags, topic.key))
      else None
    case _ => None
  }

  /** Whether the replica is there afterwards. Its host or its shard takes it along. */
  function ReplicaStored(r: nat, s: State, e: Entry, result: Result): Option<bool> {
    match e.cmd
    case ReplicaPost(_) => if result == Result(r, "") then Some(true) else None
    case ReplicaDel(id) => if id == r then Some(false) else None
    case HostDel(h) => if r in s.replicas && s.replicas[r].hostId == h then Some(false) else None
    case ShardDel(k) => if k in s.shards && r in s.replicas && s.replicas[r].shardId == k then Some(false) else None
    case _ => None
  }

  const NO_REPLICA := Replica(0, 0, 0, "", NilTags, "", false, false, 0)

  function ReplicaAt(s: State, r: nat): Replica {
    if r in s.replicas then s.replicas[r] else NO_REPLICA
  }

  ghost predicate ReplicaObeys(r: nat, topic: ReplicaTopic, s: State, t: State, e: Entry, result: Result) {
    r in t.replicas ==>
      Picks(ReplicaSaid(r, topic, s, e, result), r in s.replicas, ReplicaField(topic, ReplicaAt(s, r)),
            ReplicaField(topic, ReplicaAt(t, r)))
  }

  ghost predicate ReplicaKept(r: nat, s: State, t: State, e: Entry, result: Result) {
    Picks(ReplicaStored(r, s, e, result), true, r in s.replicas, r in t.replicas)
  }

  lemma PutReplicaObeys(r: nat, topic: ReplicaTopic, s: State, e: Entry)
    requires e.cmd.ReplicaPut? && ApplyCommand(s, e.cmd, e.index).Next?
    ensures var step := ApplyCommand(s, e.cmd, e.index);
            ReplicaObeys(r, topic, s, step.state, e, step.result) && ReplicaKept(r, s, step.state, e, step.result)
  {
    if r in s.replicas && e.cmd.replica.id == r {
      TagPutTells(s.replicas[r].tags, e.cmd.replica.tags, if topic.ReplicaTag? then topic.key else "");
    }
  }

  lemma TagReplicaObeys(r: nat, topic: ReplicaTopic, s: State, e: Entry)
    requires Keyed(s) && e.cmd.ReplicaTags? && ApplyCommand(s, e.cmd, e.index).Next?
    ensures var step := ApplyCommand(s, e.cmd, e.index);
            ReplicaObeys(r, topic, s, step.state, e, step.result) && ReplicaKept(r, s, step.state, e, step.result)
  {
    if r in s.replicas && e.cmd.replicaId == r {
      EffectiveWrites(e.cmd.op, s.replicas[r].tags, e.cmd.tags);
      TagOpTells(e.cmd.op, s.replicas[r].tags, e.cmd.tags, if topic.ReplicaTag? then topic.key else "");
    }
  }

  lemma PostReplicaObeys(r: nat, topic: ReplicaTopic, s: State, e: Entry)
    requires Inv(s) && Fits(s, e) && e.cmd.ReplicaPost? && ApplyCommand(s, e.cmd, e.index).Next?
    ensures var step := ApplyCommand(s, e.cmd, e.index);
            ReplicaObeys(r, topic, s, step.state, e, step.result) && ReplicaKept(r, s, step.state, e, step.result)
  {
  }

  lemma ReplicaFieldObeys(r: nat, topic: ReplicaTopic, s: State, e: Entry)
    requires Keyed(s) && (e.cmd.ReplicaStatus? || e.cmd.ReplicaDel?) && ApplyCommand(s, e.cmd, e.index).Next?
    ensures var step := ApplyCommand(s, e.cmd, e.index);
            ReplicaObeys(r, topic, s, step.state, e, step.result) && ReplicaKept(r, s, step.state, e, step.result)
  {
  }

  lemma HostCommandReplicas(r: nat, topic: ReplicaTopic, s: State, e: Entry)
    requires Inv(s) && (e.cmd.HostPut? || e.cmd.HostDel? || e.cmd.HostTags? || e.cmd.Unrecognized? || e.cmd.Malformed?)
    requires ApplyCommand(s, e.cmd, e.index).Next?
    ensures var step := ApplyCommand(s, e.cmd, e.index);
            ReplicaObeys(r, topic, s, step.state, e, step.result) && ReplicaKept(r, s, step.state, e, step.result)
  {
  }

  lemma ShardCommandReplicas(r: nat, topic: ReplicaTopic, s: State, e: Entry)
    requires ShardWrites(e.cmd) || e.cmd.ShardTouch?
    requires ApplyCommand(s, e.cmd, e.index).Next?
    ensures var step := ApplyCommand(s, e.cmd, e.index);
            ReplicaObeys(r, topic, s, step.state, e, step.result) && ReplicaKept(r, s, step.state, e, step.result)
  {
  }

  lemma ReplicaCommandObeys(r: nat, topic: ReplicaTopic, s: State, e: Entry)
    requires Inv(s) && Fits(s, e) && ApplyCommand(s, e.cmd, e.index).Next?
    ensures var step := ApplyCommand(s, e.cmd, e.index);
            ReplicaObeys(r, topic, s, step.state, e, step.result) && ReplicaKept(r, s, step.state, e, step.result)
  {
    var cmd := e.cmd;
    if cmd.ReplicaPut? {
      PutReplicaObeys(r, topic, s, e);
    } else if cmd.ReplicaTags? {
      TagReplicaObeys(r, topic, s, e);
    } else if cmd.ReplicaPost? {
      PostReplicaObeys(r, topic, s, e);
    } else if cmd.ReplicaStatus? || cmd.ReplicaDel? {
      ReplicaFieldObeys(r, topic, s, e);
    } else if ShardWrites(cmd) || cmd.ShardTouch? {
      ShardCommandReplicas(r, topic, s, e);
    } else {
      HostCommandReplicas(r, topic, s, e);
    }
  }

  function ReplicaWord(r: nat, topic: ReplicaTopic): Said<Value> {
    (s, e, result) => ReplicaSaid(r, topic, s, e, result)
  }

  function ReplicaStoredWord(r: nat): Said<bool> {
    (s, e, result) => ReplicaStored(r, s, e, result)
  }

  ghost function HasReplica(r: nat): State -> bool {
    (s: State) => r in s.replicas
  }

  ghost function ReplicaFieldOf(r: nat, topic: ReplicaTopic): State -> Value {
    (s: State) => ReplicaField(topic, ReplicaAt(s, r))
  }

  lemma ReplicaWordObeyed(r: nat, topic: ReplicaTopic, s: State, e: Entry)
    ensures Obeys(ReplicaWord(r, topic), HasReplica(r), ReplicaFieldOf(r, topic), s, e)
    ensures Obeys(ReplicaStoredWord(r), Always(), HasReplica(r), s, e)
  {
    if Inv(s) && Fits(s, e) && Apply(s, e).Next? {
      ReplicaCommandObeys(r, topic, s, e);
      assert Apply(s, e).state.replicas == ApplyCommand(s, e.cmd, e.index).state.replicas;
    }
  }

  /** The same for every field of a stored replica. */
  lemma ReplicasFollowLog(es: seq<Event>, ss: seq<State>, i: nat, r: nat, topic: ReplicaTopic)
    requires IsRun(es, ss) && i <= |es| && RestartsKeep(es, ss, 0, i) && r in ss[i].replicas
    ensures LastSaid(ReplicaWord(r, topic), es, ss, i) == Some(ReplicaField(topic, ss[i].replicas[r]))
  {
    forall s, e ensures Obeys(ReplicaWord(r, topic), HasReplica(r), ReplicaFieldOf(r, topic), s, e) {
      ReplicaWordObeyed(r, topic, s, e);
    }
    Told(ReplicaWord(r, topic), HasReplica(r), ReplicaFieldOf(r, topic), es, ss, i);
  }

  /** A replica is stored exactly if it was posted and neither it nor its host nor its shard deleted since. */
  lemma ReplicaStoredExactly(es: seq<Event>, ss: seq<State>, i: nat, r: nat)
    requires IsRun(es, ss) && i <= |es| && RestartsKeep(es, ss, 0, i)
    ensures r in ss[i].replicas <==> LastSaid(ReplicaStoredWord(r), es, ss, i) == Some(true)
  {
    forall s, e ensures Obeys(ReplicaStoredWord(r), Always(), HasReplica(r), s, e) {
      ReplicaWordObeyed(r, ReplicaHost, s, e);
    }
    Told(ReplicaStoredWord(r), Always(), HasReplica(r), es, ss, i);
  }

  /******* Hosts *******/

  datatype HostTopic = HostStatus | HostApi | HostRaft | HostTypes | HostBirth | HostStamp | HostHasTags
                     | HostTag(key: string)

  function HostField(topic: HostTopic, row: Host): Value {
    match topic
    case HostStatus => Text(row.status)
    case HostApi => Text(row.apiAddress)
    case HostRaft => Text(row.raftAddress)
    case HostTypes => Texts(row.shardTypes)
    case HostBirth => Number(row.created)
    case HostStamp => Number(row.updated)
    case HostHasTags => Truth(row.tags.Tags?)
    case HostTag(x) => Tag(Lookup(row.tags, x))
  }

  function HostBrings(topic: HostTopic, row: Host, index: nat, stored: bool): Option<Value> {
    match topic
    case HostBirth => if stored then None else Some(Number(index))
    case HostStamp => Some(Number(index))
    case HostTag(x) => if stored && x !in row.tags.Entries() then None else Some(Tag(Lookup(row.tags, x)))
    case _ => Some(HostField(topic, row))
  }

  /** What an entry says about a field of host `h`. */
  ghost function HostSaid(h: string, topic: HostTopic, s: State, e: Entry, result: Result): Option<Value> {
    match e.cmd
    case HostPut(row) => if row.id == h then HostBrings(topic, row, e.index, h in s.hosts) else None
    case HostTags(op, id, tags) =>
      if id == h && h in s.hosts && topic.HostTag? then TagValue(TagOpSaid(op, s.hosts[h].tags, tags, topic.key))
      else None
    case _ => if topic.HostStamp? && Calls(h, s, e.cmd) then Some(Number(e.index)) else None
  }

  /** Commands about a replica on the host, or about a stored shard that has one there. */
  ghost predicate Calls(h: string, s: State, cmd: Command) {
    match cmd
    case ShardTouch(k) => Seats(s, h, k)
    case ShardPut(row) => (row.id in s.shards || (row.id == 0 && s.shardCounter == 0)) && Seats(s, h, row.id)
    case ShardStatus(k, _) => k in s.shards && Seats(s, h, k)
    case ShardDel(k) => k in s.shards && Seats(s, h, k)
    case ShardTags(op, k, tags) => k in s.shards && Effective(op, s.shards[k].tags, tags) && Seats(s, h, k)
    case ReplicaPost(row) => row.hostId == h
    case ReplicaStatus(r, _) => r in s.replicas && s.replicas[r].hostId == h
    case ReplicaPut(row) => row.id in s.replicas && row.hostId == h
    case ReplicaDel(r) => r in s.replicas && s.replicas[r].hostId == h
    case ReplicaTags(op, r, tags) =>
      r in s.replicas && Effective(op, s.replicas[r].tags, tags) && s.replicas[r].hostId == h
    case _ => false
  }

  function HostStored(h: string, e: Entry): Option<bool> {
    match e.cmd
    case HostPut(row) => if row.id == h then Some(true) else None
    case HostDel(id) => if id == h then Some(false) else None
    case _ => None
  }

  const NO_HOST := Host("", 0, 0, "", NilTags, "", "", [])

  function HostAt(s: State, h: string): Host {
    if h in s.hosts then s.hosts[h] else NO_HOST
  }

  ghost predicate HostObeys(h: string, topic: HostTopic, s: State, t: State, e: Entry, result: Result) {
    h in t.hosts ==>
      Picks(HostSaid(h, topic, s, e, result), h in s.hosts, HostField(topic, HostAt(s, h)),
            HostField(topic, HostAt(t, h)))
  }

  ghost predicate HostKept(h: string, s: State, t: State, e: Entry) {
    Picks(HostStored(h, e), true, h in s.hosts, h in t.hosts)
  }

  lemma HostPutObeys(h: string, topic: HostTopic, s: State, e: Entry)
    requires (e.cmd.HostPut? || e.cmd.HostDel?) && ApplyCommand(s, e.cmd, e.index).Next?
    ensures var step := ApplyCommand(s, e.cmd, e.index);
            HostObeys(h, topic, s, step.state, e, step.result) && HostKept(h, s, step.state, e)
  {
    if e.cmd.HostPut? && h in s.hosts && e.cmd.host.id == h {
      TagPutTells(s.hosts[h].tags, e.cmd.host.tags, if topic.HostTag? then topic.key else "");
    }
  }

  lemma HostTagsObeys(h: string, topic: HostTopic, s: State, e: Entry)
    requires e.cmd.HostTags? && ApplyCommand(s, e.cmd, e.index).Next?
    ensures var step := ApplyCommand(s, e.cmd, e.index);
            HostObeys(h, topic, s, step.state, e, step.result) && HostKept(h, s, step.state, e)
  {
    if h in s.hosts && e.cmd.hostId == h {
      EffectiveWrites(e.cmd.op, s.hosts[h].tags, e.cmd.tags);
      TagOpTells(e.cmd.op, s.hosts[h].tags, e.cmd.tags, if topic.HostTag? then topic.key else "");
    }
  }

  /** Exactly the hosts that the command calls upon are stamped, and nothing else changes. */
  ghost predicate HostsStamped(s: State, t: State, cmd: Command, index: nat) {
    && t.hosts.Keys == s.hosts.Keys
    && forall h :: h in s.hosts ==>
         t.hosts[h] == s.hosts[h].(updated := if Calls(h, s, cmd) then index else s.hosts[h].updated)
  }

  lemma StampedHosts(h: string, topic: HostTopic, s: State, t: State, e: Entry, result: Result)
    requires HostsStamped(s, t, e.cmd, e.index) && !e.cmd.HostPut? && !e.cmd.HostDel? && !e.cmd.HostTags?
    ensures HostObeys(h, topic, s, t, e, result) && HostKept(h, s, t, e)
  {
  }

  lemma ShardCommandHosts(s: State, cmd: Command, index: nat)
    requires cmd.ShardPost? || cmd.ShardTouch? || cmd.ShardPut? || cmd.ShardLeader?
    requires ApplyCommand(s, cmd, index).Next?
    ensures HostsStamped(s, ApplyCommand(s, cmd, index).state, cmd, index)
  {
    SeatsAll(s);
  }

  lemma ShardRestHosts(s: State, cmd: Command, index: nat)
    requires Keyed(s) && (cmd.ShardStatus? || cmd.ShardDel? || cmd.ShardTags?)
    requires ApplyCommand(s, cmd, index).Next?
    ensures HostsStamped(s, ApplyCommand(s, cmd, index).state, cmd, index)
  {
    SeatsAll(s);
    if cmd.ShardTags? && cmd.shardId in s.shards {
      EffectiveWrites(cmd.op, s.shards[cmd.shardId].tags, cmd.tags);
    }
  }

  lemma SeatsAll(s: State)
    ensures forall h, k {:trigger Seats(s, h, k)} :: Seats(s, h, k) <==> h in HostsOf(s.replicas, OfShard(s.replicas, k))
  {
    forall h, k ensures Seats(s, h, k) <==> h in HostsOf(s.replicas, OfShard(s.replicas, k)) {
      SeatsSets(s, h, k);
    }
  }

  lemma ReplicaCommandHosts(s: State, cmd: Command, index: nat)
    requires (cmd.ReplicaPost? || cmd.ReplicaPut?) && ApplyCommand(s, cmd, index).Next?
    ensures HostsStamped(s, ApplyCommand(s, cmd, index).state, cmd, index)
  {
  }

  lemma ReplicaRestHosts(s: State, cmd: Command, index: nat)
    requires cmd.ReplicaStatus? || cmd.ReplicaDel? || cmd.ReplicaTags? || cmd.Unrecognized? || cmd.Malformed?
    requires ApplyCommand(s, cmd, index).Next?
    ensures HostsStamped(s, ApplyCommand(s, cmd, index).state, cmd, index)
  {
    if cmd.ReplicaTags? && cmd.replicaId in s.replicas {
      EffectiveWrites(cmd.op, s.replicas[cmd.replicaId].tags, cmd.tags);
    }
  }

  lemma HostCommandObeys(h: string, topic: HostTopic, s: State, e: Entry)
    requires Inv(s) && Fits(s, e) && ApplyCommand(s, e.cmd, e.index).Next?
    ensures var step := ApplyCommand(s, e.cmd, e.index);
            HostObeys(h, topic, s, step.state, e, step.result) && HostKept(h, s, step.state, e)
  {
    var cmd, step := e.cmd, ApplyCommand(s, e.cmd, e.index);
    if cmd.HostPut? || cmd.HostDel? {
      HostPutObeys(h, topic, s, e);
    } else if cmd.HostTags? {
      HostTagsObeys(h, topic, s, e);
    } else {
      if cmd.ShardPost? || cmd.ShardTouch? || cmd.ShardPut? || cmd.ShardLeader? {
        ShardCommandHosts(s, cmd, e.index);
      } else if cmd.ShardStatus? || cmd.ShardDel? || cmd.ShardTags? {
        ShardRestHosts(s, cmd, e.index);
      } else if cmd.ReplicaPost? || cmd.ReplicaPut? {
        ReplicaCommandHosts(s, cmd, e.index);
      } else {
        ReplicaRestHosts(s, cmd, e.index);
      }
      StampedHosts(h, topic, s, step.state, e, step.result);
    }
  }

  ghost function HostWord(h: string, topic: HostTopic): Said<Value> {
    (s, e, result) => HostSaid(h, topic, s, e, result)
  }

  function HostStoredWord(h: string): Said<bool> {
    (s, e, result) => HostStored(h, e)
  }

  ghost function HasHost(h: string): State -> bool {
    (s: State) => h in s.hosts
  }

  ghost function HostFieldOf(h: string, topic: HostTopic): State -> Value {
    (s: State) => HostField(topic, HostAt(s, h))
  }

  lemma HostWordObeyed(h: string, topic: HostTopic, s: State, e: Entry)
    ensures Obeys(HostWord(h, topic), HasHost(h), HostFieldOf(h, topic), s, e)
    ensures Obeys(HostStoredWord(h), Always(), HasHost(h), s, e)
  {
    if Inv(s) && Fits(s, e) && Apply(s, e).Next? {
      HostCommandObeys(h, topic, s, e);
      assert Apply(s, e).state.hosts == ApplyCommand(s, e.cmd, e.index).state.hosts;
    }
  }

  /** The same for every field of a stored host. */
  lemma HostsFollowLog(es: seq<Event>, ss: seq<State>, i: nat, h: string, topic: HostTopic)
    requires IsRun(es, ss) && i <= |es| && RestartsKeep(es, ss, 0, i) && h in ss[i].hosts
    ensures LastSaid(HostWord(h, topic), es, ss, i) == Some(HostField(topic, ss[i].hosts[h]))
  {
    forall s, e ensures Obeys(HostWord(h, topic), HasHost(h), HostFieldOf(h, topic), s, e) {
      HostWordObeyed(h, topic, s, e);
    }
    Told(HostWord(h, topic), HasHost(h), HostFieldOf(h, topic), es, ss, i);
  }

  /** A host is stored exactly if it was put and not deleted since. */
  lemma HostStoredExactly(es: seq<Event>, ss: seq<State>, i: nat, h: string)
    requires IsRun(es, ss) && i <= |es| && RestartsKeep(es, ss, 0, i)
    ensures h in ss[i].hosts <==> LastSaid(HostStoredWord(h), es, ss, i) == Some(true)
  {
    forall s, e ensures Obeys(HostStoredWord(h), Always(), HasHost(h), s, e) {
      HostWordObeyed(h, HostStatus, s, e);
    }
    Told(HostStoredWord(h), Always(), HasHost(h), es, ss, i);
  }

  /******* Names *******/

  /** The entry makes the registry insert a stored row of that name again. */
  ghost predicate Renews(x: string, s: State, cmd: Command) {
    exists k :: k in s.shards && s.shards[k].name == x && Touches(k, s, cmd)
  }

  /** Whether a name is indexed afterwards. A row that is inserted enters its name; one that is renamed or
      deleted removes its former name, whichever rows have it. */
  ghost function NameSaid(x: string, s: State, e: Entry, result: Result): Option<bool> {
    match e.cmd
    case ShardPut(row) =>
      if row.id !in s.shards && !(row.id == 0 && s.shardCounter == 0) then None
      else if row.name == x then Some(true)
      else if row.id in s.shards && s.shards[row.id].name == x then Some(false)
      else None
    case ShardPost(row) => if result.data == "" && row.name == x then Some(true) else None
    case ShardDel(k) => if k in s.shards && s.shards[k].name == x then Some(false) else None
    case ShardTags(op, k, tags) =>
      if k in s.shards && Effective(op, s.shards[k].tags, tags) && s.shards[k].name == x then Some(true) else None
    case _ => if Renews(x, s, e.cmd) then Some(true) else None
  }

  ghost predicate NameObeys(x: string, s: State, e: Entry, step: Step) {
    step.Next? ==> Picks(NameSaid(x, s, e, step.result), true, x in s.names, x in step.state.names)
  }

  lemma NamesInAt(s: State, ids: set<nat>, x: string)
    requires x != ""
    ensures x in NamesIn(s.shards, ids) <==> exists k :: k in s.shards && s.shards[k].name == x && k in ids
  {
    if k :| k in s.shards && s.shards[k].name == x && k in ids {
      assert s.shards[k].name in NamesIn(s.shards, ids);
    }
  }

  lemma HostCommandNames(x: string, s: State, e: Entry)
    requires x != "" && Inv(s)
    requires e.cmd.HostPut? || e.cmd.HostDel? || e.cmd.HostTags? || e.cmd.Unrecognized? || e.cmd.Malformed?
    ensures NameObeys(x, s, e, ApplyCommand(s, e.cmd, e.index))
  {
    if e.cmd.HostPut? || e.cmd.HostDel? || e.cmd.HostTags? {
      var h := if e.cmd.HostPut? then e.cmd.host.id else e.cmd.hostId;
      forall k ensures Seats(s, h, k) <==> k in ShardsOf(s.replicas, OnHost(s.replicas, h)) {
        SeatsSets(s, h, k);
      }
      NamesInAt(s, ShardsOf(s.replicas, OnHost(s.replicas, h)), x);
      if e.cmd.HostTags? && h in s.hosts && WriteTags(e.cmd.op, s.hosts[h].tags, e.cmd.tags.Entries()).Wrote? {
        EffectiveWrites(e.cmd.op, s.hosts[h].tags, e.cmd.tags);
      }
    }
  }

  lemma ReplicaCommandNames(x: string, s: State, e: Entry)
    requires x != "" && (e.cmd.ReplicaPost? || e.cmd.ReplicaPut? || e.cmd.ReplicaDel?)
    ensures NameObeys(x, s, e, ApplyCommand(s, e.cmd, e.index))
  {
    match e.cmd
    case ReplicaPost(row) => NamesInAt(s, {row.shardId}, x);
    case ReplicaPut(row) => NamesInAt(s, {row.shardId}, x);
    case ReplicaDel(r) => if r in s.replicas { NamesInAt(s, {s.replicas[r].shardId}, x); }
  }

  lemma ReplicaFieldNames(x: string, s: State, e: Entry)
    requires x != "" && (e.cmd.ReplicaStatus? || e.cmd.ReplicaTags?)
    ensures NameObeys(x, s, e, ApplyCommand(s, e.cmd, e.index))
  {
    var r := e.cmd.replicaId;
    if r in s.replicas {
      NamesInAt(s, {s.replicas[r].shardId}, x);
      if e.cmd.ReplicaTags? && WriteTags(e.cmd.op, s.replicas[r].tags, e.cmd.tags.Entries()).Wrote? {
        EffectiveWrites(e.cmd.op, s.replicas[r].tags, e.cmd.tags);
      }
    }
  }

  lemma ShardCommandNames(x: string, s: State, e: Entry)
    requires x != "" && Keyed(s) && (e.cmd.ShardPut? || e.cmd.ShardDel? || e.cmd.ShardTouch?)
    ensures NameObeys(x, s, e, ApplyCommand(s, e.cmd, e.index))
  {
    if e.cmd.ShardTouch? {
      NamesInAt(s, {e.cmd.shardId}, x);
    }
  }

  lemma ShardPostNames(x: string, s: State, e: Entry)
    requires Inv(s) && Fits(s, e) && x != "" && e.cmd.ShardPost?
    ensures NameObeys(x, s, e, ApplyCommand(s, e.cmd, e.index))
  {
  }

  lemma ShardFieldNames(x: string, s: State, e: Entry)
    requires x != "" && Keyed(s) && (e.cmd.ShardStatus? || e.cmd.ShardLeader? || e.cmd.ShardTags?)
    ensures NameObeys(x, s, e, ApplyCommand(s, e.cmd, e.index))
  {
    if e.cmd.ShardTags? && e.cmd.shardId in s.shards {
      var has := s.shards[e.cmd.shardId].tags;
      if WriteTags(e.cmd.op, has, e.cmd.tags.Entries()).Wrote? {
        EffectiveWrites(e.cmd.op, has, e.cmd.tags);
      }
    }
  }

  /** After every entry a name is indexed exactly if the entry entered it, or it was indexed and the entry
      did not remove it. */
  lemma NamesFollow(s: State, e: Entry, x: string)
    requires Inv(s) && Fits(s, e) && Apply(s, e).Next? && x != ""
    ensures Picks(NameSaid(x, s, e, Apply(s, e).result), true, x in s.names, x in Apply(s, e).state.names)
  {
    var cmd := e.cmd;
    if cmd.ShardPost? {
      ShardPostNames(x, s, e);
    } else if cmd.ShardPut? || cmd.ShardDel? || cmd.ShardTouch? {
      ShardCommandNames(x, s, e);
    } else if cmd.ShardStatus? || cmd.ShardLeader? || cmd.ShardTags? {
      ShardFieldNames(x, s, e);
    } else if cmd.ReplicaPost? || cmd.ReplicaPut? || cmd.ReplicaDel? {
      ReplicaCommandNames(x, s, e);
    } else if cmd.ReplicaStatus? || cmd.ReplicaTags? {
      ReplicaFieldNames(x, s, e);
    } else {
      HostCommandNames(x, s, e);
    }
    assert Apply(s, e).state.names == ApplyCommand(s, e.cmd, e.index).state.names;
  }

  /******* Counters *******/

  /** The shard counter is the id of the last shard posted, and the host id in the snapshot header that of
      the last host that was new. */
  lemma HeaderFollowsLog(es: seq<Event>, ss: seq<State>, i: nat)
    requires IsRun(es, ss) && i <= |es| && RestartsKeep(es, ss, 0, i)
    ensures ss[i].shardCounter == match LastSaid(ShardPosted(), es, ss, i) { case Some(k) => k case None => 0 }
    ensures ss[i].lastHost == match LastSaid(NewHost(), es, ss, i) { case Some(h) => h case None => "" }
  {
    forall s, e ensures Obeys(ShardPosted(), Always(), ShardCount(), s, e) && Obeys(NewHost(), Always(), LastHost(), s, e) {
      HeaderObeyed(s, e);
    }
    Told(ShardPosted(), Always(), ShardCount(), es, ss, i);
    Told(NewHost(), Always(), LastHost(), es, ss, i);
  }

  ghost function ShardCount(): State -> nat {
    (s: State) => s.shardCounter
  }

  ghost function LastHost(): State -> string {
    (s: State) => s.lastHost
  }

  lemma HostCommandHeader(s: State, cmd: Command, index: nat)
    requires cmd.HostPut? || cmd.HostDel? || cmd.HostTags? || cmd.Unrecognized? || cmd.Malformed?
    requires ApplyCommand(s, cmd, index).Next?
    ensures var t := ApplyCommand(s, cmd, index).state;
            && t.shardCounter == s.shardCounter
            && t.lastHost == if cmd.HostPut? && cmd.host.id !in s.hosts then cmd.host.id else s.lastHost
  {
  }

  lemma ShardCommandHeader(s: State, cmd: Command, index: nat)
    requires ShardWrites(cmd) || cmd.ShardTouch?
    requires ApplyCommand(s, cmd, index).Next?
    ensures var step := ApplyCommand(s, cmd, index);
            && step.state.lastHost == s.lastHost
            && step.state.shardCounter
               == if cmd.ShardPost? && step.result.data == "" then step.result.value else s.shardCounter
  {
  }

  lemma ReplicaCommandHeader(s: State, cmd: Command, index: nat)
    requires cmd.ReplicaPost? || cmd.ReplicaStatus? || cmd.ReplicaPut? || cmd.ReplicaDel? || cmd.ReplicaTags?
    requires ApplyCommand(s, cmd, index).Next?
    ensures var t := ApplyCommand(s, cmd, index).state; t.lastHost == s.lastHost && t.shardCounter == s.shardCounter
  {
  }

  lemma HeaderObeyed(s: State, e: Entry)
    ensures Obeys(ShardPosted(), Always(), ShardCount(), s, e) && Obeys(NewHost(), Always(), LastHost(), s, e)
  {
    var cmd := e.cmd;
    if Apply(s, e).Next? {
      if cmd.HostPut? || cmd.HostDel? || cmd.HostTags? || cmd.Unrecognized? || cmd.Malformed? {
        HostCommandHeader(s, cmd, e.index);
      } else if ShardWrites(cmd) || cmd.ShardTouch? {
        ShardCommandHeader(s, cmd, e.index);
      } else {
        ReplicaCommandHeader(s, cmd, e.index);
      }
    }
  }

  function ShardPosted(): Said<nat> {
    (s: State, e: Entry, result: Result) => if e.cmd.ShardPost? && result.data == "" then Some(result.value) else None
  }

  function NewHost(): Said<string> {
    (s: State, e: Entry, result: Result) =>
      if e.cmd.HostPut? && e.cmd.host.id !in s.hosts then Some(e.cmd.host.id) else None
  }

  /******* Answers *******/

  /** What the proposer of a command is told: the id for a post, a put of a shard and a touch, and
      otherwise whether there was a row, and tags to write. */
  ghost function Answer(s: State, cmd: Command): Result {
    match cmd
    case HostPut(_) => Result(1, "")
    case HostDel(h) => Granted(h in s.hosts)
    case HostTags(op, h, tags) => Granted(h in s.hosts && Effective(op, s.hosts[h].tags, tags))
    case ShardPost(row) =>
      if row.name != "" && row.name in s.names then Result(0, "Shard already exists: " + row.name)
      else Result(s.shardCounter + 1, "")
    case ShardTouch(k) => Result(k, "")
    case ShardPut(row) => Result(if row.id in s.shards then row.id else 0, "")
    case ShardStatus(k, _) => Granted(k in s.shards)
    case ShardLeader(k, _, _) => Granted(k in s.shards)
    case ShardDel(k) => Granted(k in s.shards)
    case ShardTags(op, k, tags) => Granted(k in s.shards && Effective(op, s.shards[k].tags, tags))
    case ReplicaPost(_) => Result(s.replicaCounter + 1, "")
    case ReplicaStatus(r, _) => Granted(r in s.replicas)
    case ReplicaPut(row) => Granted(row.id in s.replicas)
    case ReplicaDel(r) => Granted(r in s.replicas)
    case ReplicaTags(op, r, tags) => Granted(r in s.replicas && Effective(op, s.replicas[r].tags, tags))
    case _ => Result(0, "")
  }

  function Granted(done: bool): Result {
    Result(if done then 1 else 0, "")
  }

  lemma HostAnswers(s: State, cmd: Command, index: nat)
    requires cmd.HostPut? || cmd.HostDel? || cmd.HostTags? || cmd.Unrecognized? || cmd.Malformed?
    requires ApplyCommand(s, cmd, index).Next?
    ensures ApplyCommand(s, cmd, index).result == Answer(s, cmd)
  {
    if cmd.HostTags? && cmd.hostId in s.hosts {
      EffectiveWrites(cmd.op, s.hosts[cmd.hostId].tags, cmd.tags);
    }
  }

  lemma ShardAnswers(s: State, cmd: Command, index: nat)
    requires Inv(s) && s.index < index < U64_LIMIT && (ShardWrites(cmd) || cmd.ShardTouch?)
    requires ApplyCommand(s, cmd, index).Next?
    ensures ApplyCommand(s, cmd, index).result == Answer(s, cmd)
  {
    if cmd.ShardTags? && cmd.shardId in s.shards {
      EffectiveWrites(cmd.op, s.shards[cmd.shardId].tags, cmd.tags);
    }
  }

  lemma ReplicaAnswers(s: State, cmd: Command, index: nat)
    requires Inv(s) && s.index < index < U64_LIMIT
    requires cmd.ReplicaPost? || cmd.ReplicaStatus? || cmd.ReplicaPut? || cmd.ReplicaDel? || cmd.ReplicaTags?
    requires ApplyCommand(s, cmd, index).Next?
    ensures ApplyCommand(s, cmd, index).result == Answer(s, cmd)
  {
    if cmd.ReplicaTags? && cmd.replicaId in s.replicas {
      EffectiveWrites(cmd.op, s.replicas[cmd.replicaId].tags, cmd.tags);
    }
  }

  /** Every proposer of a run is told so. */
  lemma AnswersExactly(es: seq<Event>, ss: seq<State>, i: nat)
    requires IsRun(es, ss) && i < |es| && es[i].Commit?
    ensures ResultAt(es, ss, i) == Answer(ss[i], es[i].entry.cmd)
  {
    Reachable(es, ss, i);
    assert StepAt(es, ss, i);
    var cmd := es[i].entry.cmd;
    if cmd.HostPut? || cmd.HostDel? || cmd.HostTags? || cmd.Unrecognized? || cmd.Malformed? {
      HostAnswers(ss[i], cmd, es[i].entry.index);
    } else if ShardWrites(cmd) || cmd.ShardTouch? {
      ShardAnswers(ss[i], cmd, es[i].entry.index);
    } else {
      ReplicaAnswers(ss[i], cmd, es[i].entry.index);
    }
  }
}
