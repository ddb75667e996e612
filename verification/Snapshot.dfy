/**
 Snapshots: the registry written out as a header and one line per row, and read back into a fresh
 store. Reading back rebuilds the name index from the rows, so replaying the rest of the log after
 a restart gives what the uninterrupted log gives exactly when the index was complete.
 */
module Snapshot {
  import opened Registry
  import opened Replays
  import opened RegistryRuns
  import opened Fsm

  datatype Header = Header(
    index: nat, hostId: string, hosts: nat, replicaId: nat, replicas: nat, shardId: nat, shards: nat)

  datatype Line =
    | HeaderLine(header: Header)
    | HostLine(host: Host)
    | ShardLine(shard: Shard)
    | ReplicaLine(replica: Replica)

  /******* Listings *******/

  /** Every row of the table once, in some order. */
  ghost predicate Lists<K, V>(rows: seq<V>, table: map<K, V>, id: V -> K) {
    && (forall i :: 0 <= i < |rows| ==> id(rows[i]) in table && table[id(rows[i])] == rows[i])
    && (forall i, j :: 0 <= i < j < |rows| ==> id(rows[i]) != id(rows[j]))
    && (forall k :: k in table ==> table[k] in rows)
  }

  function Insert<K, V>(table: map<K, V>, rows: seq<V>, id: V -> K): map<K, V> {
    if rows == [] then table
    else Insert(table, rows[..|rows| - 1], id)[id(rows[|rows| - 1]) := rows[|rows| - 1]]
  }

  lemma {:induction false} InsertAll<K, V>(rows: seq<V>, id: V -> K)
    requires forall i, j :: 0 <= i < j < |rows| ==> id(rows[i]) != id(rows[j])
    ensures forall i :: 0 <= i < |rows| ==>
              id(rows[i]) in Insert(map[], rows, id) && Insert(map[], rows, id)[id(rows[i])] == rows[i]
    ensures forall k :: k in Insert(map[], rows, id) ==> Insert(map[], rows, id)[k] in rows
                                                         && id(Insert(map[], rows, id)[k]) == k
  {
    if rows != [] {
      InsertAll(rows[..|rows| - 1], id);
    }
  }

  lemma InsertListing<K, V>(rows: seq<V>, table: map<K, V>, id: V -> K)
    requires Lists(rows, table, id) && forall k :: k in table ==> id(table[k]) == k
    ensures Insert(map[], rows, id) == table
  {
    InsertAll(rows, id);
    forall k | k in table ensures k in Insert(map[], rows, id) {
      assert table[k] in rows;
    }
  }

  function HostId(h: Host): string { h.id }
  function ShardId(k: Shard): nat { k.id }
  function ReplicaId(r: Replica): nat { r.id }

  /** Rows are put back one at a time, each through the name index. */
  function LoadShards(s: State, rows: seq<Shard>): State {
    if rows == [] then s else PutShard(LoadShards(s, rows[..|rows| - 1]), rows[|rows| - 1])
  }

  function Load(s: State, h: Header, hosts: seq<Host>, shards: seq<Shard>, replicas: seq<Replica>): State {
    var t := s.(index := h.index, lastHost := h.hostId, shardCounter := h.shardId,
                replicaCounter := h.replicaId, hosts := Insert(s.hosts, hosts, HostId));
    var u := LoadShards(t, shards);
    u.(replicas := Insert(s.replicas, replicas, ReplicaId))
  }

  lemma {:induction false} LoadShardsFresh(s: State, rows: seq<Shard>)
    requires s.shards == map[] && s.names == {}
    requires forall i, j :: 0 <= i < j < |rows| ==> ShardId(rows[i]) != ShardId(rows[j])
    ensures var t := LoadShards(s, rows);
            t == s.(shards := Insert(map[], rows, ShardId), names := NamesOf(t.shards))
  {
    if rows != [] {
      var front, row := rows[..|rows| - 1], rows[|rows| - 1];
      LoadShardsFresh(s, front);
      InsertAll(front, ShardId);
      var t := LoadShards(s, front);
      assert row.id !in t.shards;
      NamesOfInsert(t.shards, row);
    }
  }

  lemma NamesOfInsert(shards: map<nat, Shard>, row: Shard)
    requires row.id !in shards
    ensures NamesOf(shards[row.id := row])
            == if row.name == "" then NamesOf(shards) else NamesOf(shards) + {row.name}
  {
    var more := shards[row.id := row];
    forall n | n in NamesOf(shards) ensures n in NamesOf(more) {
      var k :| k in shards && shards[k].name != "" && shards[k].name == n;
      assert k in more && more[k].name == n;
    }
    if row.name != "" {
      assert more[row.id].name in NamesOf(more);
    }
  }

  /** Reading a snapshot back into an empty store keeps everything and rebuilds the name index. */
  lemma LoadFresh(s: State, h: Header, hosts: seq<Host>, shards: seq<Shard>, replicas: seq<Replica>)
    requires Keyed(s)
    requires Lists(hosts, s.hosts, HostId) && Lists(shards, s.shards, ShardId)
    requires Lists(replicas, s.replicas, ReplicaId)
    requires h.index == s.index && h.hostId == s.lastHost
    requires h.shardId == s.shardCounter && h.replicaId == s.replicaCounter
    ensures Load(EMPTY, h, hosts, shards, replicas) == Recovered(s)
  {
    InsertListing(hosts, s.hosts, HostId);
    InsertListing(shards, s.shards, ShardId);
    InsertListing(replicas, s.replicas, ReplicaId);
    var t := EMPTY.(index := h.index, lastHost := h.hostId, shardCounter := h.shardId,
                    replicaCounter := h.replicaId, hosts := s.hosts);
    LoadShardsFresh(t, shards);
  }

  /******* Lines *******/

  function Stream(h: Header, hosts: seq<Host>, shards: seq<Shard>, replicas: seq<Replica>): seq<Line> {
    [HeaderLine(h)]
    + seq(|hosts|, i requires 0 <= i < |hosts| => HostLine(hosts[i]))
    + seq(|shards|, i requires 0 <= i < |shards| => ShardLine(shards[i]))
    + seq(|replicas|, i requires 0 <= i < |replicas| => ReplicaLine(replicas[i]))
  }

  predicate AreHosts(lines: seq<Line>, from: nat, n: nat) {
    from + n <= |lines| && forall i :: from <= i < from + n ==> lines[i].HostLine?
  }

  predicate AreShards(lines: seq<Line>, from: nat, n: nat) {
    from + n <= |lines| && forall i :: from <= i < from + n ==> lines[i].ShardLine?
  }

  predicate AreReplicas(lines: seq<Line>, from: nat, n: nat) {
    from + n <= |lines| && forall i :: from <= i < from + n ==> lines[i].ReplicaLine?
  }

  /** A header followed by at least the lines it announces, in order of kind. */
  predicate WellFormed(lines: seq<Line>) {
    && 0 < |lines|
    && lines[0].HeaderLine?
    && var h := lines[0].header;
    && AreHosts(lines, 1, h.hosts)
    && AreShards(lines, 1 + h.hosts, h.shards)
    && AreReplicas(lines, 1 + h.hosts + h.shards, h.replicas)
  }

  function HostsIn(lines: seq<Line>, from: nat, n: nat): seq<Host>
    requires AreHosts(lines, from, n)
  {
    seq(n, i requires 0 <= i < n => lines[from + i].host)
  }

  function ShardsIn(lines: seq<Line>, from: nat, n: nat): seq<Shard>
    requires AreShards(lines, from, n)
  {
    seq(n, i requires 0 <= i < n => lines[from + i].shard)
  }

  function ReplicasIn(lines: seq<Line>, from: nat, n: nat): seq<Replica>
    requires AreReplicas(lines, from, n)
  {
    seq(n, i requires 0 <= i < n => lines[from + i].replica)
  }

  /** The store after reading the lines back, whatever it held before. */
  function Loaded(s: State, lines: seq<Line>): State
    requires WellFormed(lines)
  {
    var h := lines[0].header;
    Load(s, h, HostsIn(lines, 1, h.hosts), ShardsIn(lines, 1 + h.hosts, h.shards),
         ReplicasIn(lines, 1 + h.hosts + h.shards, h.replicas))
  }

  predicate Headed(lines: seq<Line>) {
    0 < |lines| && lines[0].HeaderLine?
  }

  /** The rows counted by the header are there up to the given numbers, and no further. */
  predicate StopsAt(lines: seq<Line>, hosts: nat, shards: nat, replicas: nat)
    requires Headed(lines)
  {
    var h := lines[0].header;
    && hosts <= h.hosts && AreHosts(lines, 1, hosts)
    && shards <= h.shards && (shards == 0 || AreShards(lines, 1 + h.hosts, shards))
    && replicas <= h.replicas && (replicas == 0 || AreReplicas(lines, 1 + h.hosts + h.shards, replicas))
    && (hosts < h.hosts ==> !AreHosts(lines, 1, hosts + 1) && shards == 0)
    && (shards < h.shards ==> (hosts == h.hosts ==> !AreShards(lines, 1 + h.hosts, shards + 1)) && replicas == 0)
    && (replicas < h.replicas && shards == h.shards && hosts == h.hosts ==>
          !AreReplicas(lines, 1 + h.hosts + h.shards, replicas + 1))
  }

  lemma StopsAtEnd(lines: seq<Line>, hosts: nat, shards: nat, replicas: nat)
    requires Headed(lines) && StopsAt(lines, hosts, shards, replicas)
    ensures var h := lines[0].header;
            hosts == h.hosts && shards == h.shards && replicas == h.replicas <==> WellFormed(lines)
  {
  }

  function ShardsUpTo(lines: seq<Line>, from: nat, n: nat): seq<Shard>
    requires n == 0 || AreShards(lines, from, n)
  {
    if n == 0 then [] else ShardsIn(lines, from, n)
  }

  function ReplicasUpTo(lines: seq<Line>, from: nat, n: nat): seq<Replica>
    requires n == 0 || AreReplicas(lines, from, n)
  {
    if n == 0 then [] else ReplicasIn(lines, from, n)
  }

  function LoadRest(s: State, shards: seq<Shard>, replicas: seq<Replica>): State {
    LoadShards(s, shards).(replicas := Insert(s.replicas, replicas, ReplicaId))
  }

  function LoadRows(s: State, hosts: seq<Host>, shards: seq<Shard>, replicas: seq<Replica>): State {
    LoadRest(s.(hosts := Insert(s.hosts, hosts, HostId)), shards, replicas)
  }

  function LoadedUpTo(s: State, lines: seq<Line>, hosts: nat, shards: nat, replicas: nat): State
    requires Headed(lines) && StopsAt(lines, hosts, shards, replicas)
  {
    var h := lines[0].header;
    Load(s, h, HostsIn(lines, 1, hosts), ShardsUpTo(lines, 1 + h.hosts, shards),
         ReplicasUpTo(lines, 1 + h.hosts + h.shards, replicas))
  }

  method ListHosts(table: map<string, Host>) returns (rows: seq<Host>)
    requires forall k :: k in table ==> table[k].id == k
    ensures Lists(rows, table, HostId)
  {
    var todo := table.Keys;
    rows := [];
    while todo != {}
      invariant todo <= table.Keys
      invariant forall i :: 0 <= i < |rows| ==>
                  HostId(rows[i]) in table.Keys - todo && table[HostId(rows[i])] == rows[i]
      invariant forall i, j :: 0 <= i < j < |rows| ==> HostId(rows[i]) != HostId(rows[j])
      invariant forall k :: k in table && k !in todo ==> table[k] in rows
    {
      var k :| k in todo;
      rows, todo := rows + [table[k]], todo - {k};
    }
  }

  method ListShards(table: map<nat, Shard>) returns (rows: seq<Shard>)
    requires forall k :: k in table ==> table[k].id == k
    ensures Lists(rows, table, ShardId)
  {
    var todo := table.Keys;
    rows := [];
    while todo != {}
      invariant todo <= table.Keys
      invariant forall i :: 0 <= i < |rows| ==>
                  ShardId(rows[i]) in table.Keys - todo && table[ShardId(rows[i])] == rows[i]
      invariant forall i, j :: 0 <= i < j < |rows| ==> ShardId(rows[i]) != ShardId(rows[j])
      invariant forall k :: k in table && k !in todo ==> table[k] in rows
    {
      var k :| k in todo;
      rows, todo := rows + [table[k]], todo - {k};
    }
  }

  method ListReplicas(table: map<nat, Replica>) returns (rows: seq<Replica>)
    requires forall k :: k in table ==> table[k].id == k
    ensures Lists(rows, table, ReplicaId)
  {
    var todo := table.Keys;
    rows := [];
    while todo != {}
      invariant todo <= table.Keys
      invariant forall i :: 0 <= i < |rows| ==>
                  ReplicaId(rows[i]) in table.Keys - todo && table[ReplicaId(rows[i])] == rows[i]
      invariant forall i, j :: 0 <= i < j < |rows| ==> ReplicaId(rows[i]) != ReplicaId(rows[j])
      invariant forall k :: k in table && k !in todo ==> table[k] in rows
    {
      var k :| k in todo;
      rows, todo := rows + [table[k]], todo - {k};
    }
  }

  lemma StreamRows(h: Header, hosts: seq<Host>, shards: seq<Shard>, replicas: seq<Replica>)
    requires h.hosts == |hosts| && h.shards == |shards| && h.replicas == |replicas|
    ensures var lines := Stream(h, hosts, shards, replicas);
            && WellFormed(lines)
            && lines[0].header == h
            && HostsIn(lines, 1, |hosts|) == hosts
            && ShardsIn(lines, 1 + |hosts|, |shards|) == shards
            && ReplicasIn(lines, 1 + |hosts| + |shards|, |replicas|) == replicas
  {
  }

  /** Lines that list the rows of a state load as that state with its name index rebuilt. */
  lemma ListingLoads(s: State, lines: seq<Line>)
    requires Keyed(s) && WellFormed(lines)
    requires var h := lines[0].header;
             && Lists(HostsIn(lines, 1, h.hosts), s.hosts, HostId)
             && Lists(ShardsIn(lines, 1 + h.hosts, h.shards), s.shards, ShardId)
             && Lists(ReplicasIn(lines, 1 + h.hosts + h.shards, h.replicas), s.replicas, ReplicaId)
             && h.index == s.index && h.hostId == s.lastHost
             && h.shardId == s.shardCounter && h.replicaId == s.replicaCounter
    ensures Loaded(EMPTY, lines) == Recovered(s)
  {
    var h := lines[0].header;
    LoadFresh(s, h, HostsIn(lines, 1, h.hosts), ShardsIn(lines, 1 + h.hosts, h.shards),
              ReplicasIn(lines, 1 + h.hosts + h.shards, h.replicas));
  }

  method Save(store: Store) returns (lines: seq<Line>)
    requires Keyed(store.Model())
    ensures WellFormed(lines) && Loaded(EMPTY, lines) == Recovered(store.Model())
    ensures forall n :: 0 <= n < |lines| ==> !WellFormed(lines[..n])
  {
    var hosts := ListHosts(store.hosts);
    var shards := ListShards(store.shards);
    var replicas := ListReplicas(store.replicas);
    var h := Header(store.index, store.lastHost, |hosts|, store.replicaCounter, |replicas|,
                    store.shardCounter, |shards|);
    lines := Stream(h, hosts, shards, replicas);
    StreamRows(h, hosts, shards, replicas);
    ListingLoads(store.Model(), lines);
  }

  method RecoverHosts(store: Store, lines: seq<Line>, from: nat, n: nat) returns (ok: bool, ghost got: nat)
    requires from <= |lines|
    modifies store
    ensures got <= n && AreHosts(lines, from, got) && (got < n ==> !AreHosts(lines, from, got + 1))
    ensures ok <==> got == n
    ensures store.Model() == old(store.Model()).(
                hosts := Insert(old(store.hosts), HostsIn(lines, from, got), HostId))
  {
    for i := 0 to n
      invariant AreHosts(lines, from, i)
      invariant store.Model() == old(store.Model()).(
                  hosts := Insert(old(store.hosts), HostsIn(lines, from, i), HostId))
    {
      if from + i >= |lines| || !lines[from + i].HostLine? {
        return false, i;
      }
      var row := lines[from + i].host;
      store.hosts := store.hosts[row.id := row];
      assert HostsIn(lines, from, i + 1)[..i] == HostsIn(lines, from, i);
    }
    return true, n;
  }

  method RecoverShards(store: Store, lines: seq<Line>, from: nat, n: nat) returns (ok: bool, ghost got: nat)
    requires from <= |lines|
    modifies store
    ensures got <= n && AreShards(lines, from, got) && (got < n ==> !AreShards(lines, from, got + 1))
    ensures ok <==> got == n
    ensures store.Model() == LoadShards(old(store.Model()), ShardsIn(lines, from, got))
  {
    for i := 0 to n
      invariant AreShards(lines, from, i)
      invariant store.Model() == LoadShards(old(store.Model()), ShardsIn(lines, from, i))
    {
      if from + i >= |lines| || !lines[from + i].ShardLine? {
        return false, i;
      }
      store.InsertShard(lines[from + i].shard);
      assert ShardsIn(lines, from, i + 1)[..i] == ShardsIn(lines, from, i);
    }
    return true, n;
  }

  method RecoverReplicas(store: Store, lines: seq<Line>, from: nat, n: nat) returns (ok: bool, ghost got: nat)
    requires from <= |lines|
    modifies store
    ensures got <= n && AreReplicas(lines, from, got) && (got < n ==> !AreReplicas(lines, from, got + 1))
    ensures ok <==> got == n
    ensures store.Model() == old(store.Model()).(
                replicas := Insert(old(store.replicas), ReplicasIn(lines, from, got), ReplicaId))
  {
    for i := 0 to n
      invariant AreReplicas(lines, from, i)
      invariant store.Model() == old(store.Model()).(
                  replicas := Insert(old(store.replicas), ReplicasIn(lines, from, i), ReplicaId))
    {
      if from + i >= |lines| || !lines[from + i].ReplicaLine? {
        return false, i;
      }
      var row := lines[from + i].replica;
      store.replicas := store.replicas[row.id := row];
      assert ReplicasIn(lines, from, i + 1)[..i] == ReplicasIn(lines, from, i);
    }
    return true, n;
  }

  lemma {:induction false} LoadShardsReplicas(s: State, rows: seq<Shard>)
    ensures LoadShards(s, rows).replicas == s.replicas
  {
    if rows != [] {
      LoadShardsReplicas(s, rows[..|rows| - 1]);
    }
  }

  /** Succeeds exactly on well-formed streams, so a truncated snapshot is always noticed. A failed
      recovery leaves the header's counters and the rows before the first one that is missing. */
  method Recover(store: Store, lines: seq<Line>) returns (ok: bool, ghost hosts: nat, ghost shards: nat, ghost replicas: nat)
    modifies store
    ensures ok <==> WellFormed(lines)
    ensures ok ==> store.Model() == Loaded(old(store.Model()), lines)
    ensures !Headed(lines) ==> store.Model() == old(store.Model())
    ensures Headed(lines) ==> StopsAt(lines, hosts, shards, replicas)
    ensures Headed(lines) ==> store.Model() == LoadedUpTo(old(store.Model()), lines, hosts, shards, replicas)
  {
    if lines == [] || !lines[0].HeaderLine? {
      return false, 0, 0, 0;
    }
    var h := lines[0].header;
    store.index, store.lastHost := h.index, h.hostId;
    store.shardCounter, store.replicaCounter := h.shardId, h.replicaId;
    ok, hosts, shards, replicas := RecoverTables(store, lines);
    StopsAtEnd(lines, hosts, shards, replicas);
    EmptyRows(lines);
  }

  lemma EmptyRows(lines: seq<Line>)
    ensures forall from: nat :: AreShards(lines, from, 0) ==> ShardsIn(lines, from, 0) == []
    ensures forall from: nat :: AreReplicas(lines, from, 0) ==> ReplicasIn(lines, from, 0) == []
  {
  }

  /** Table by table, up to the first row that is missing. */
  method RecoverTables(store: Store, lines: seq<Line>)
    returns (ok: bool, ghost hosts: nat, ghost shards: nat, ghost replicas: nat)
    requires Headed(lines)
    modifies store
    ensures StopsAt(lines, hosts, shards, replicas)
    ensures var h := lines[0].header; ok <==> hosts == h.hosts && shards == h.shards && replicas == h.replicas
    ensures var h := lines[0].header;
            store.Model() == LoadRows(old(store.Model()), HostsIn(lines, 1, hosts),
                                      ShardsUpTo(lines, 1 + h.hosts, shards),
                                      ReplicasUpTo(lines, 1 + h.hosts + h.shards, replicas))
  {
    var h := lines[0].header;
    shards, replicas := 0, 0;
    ok, hosts := RecoverHosts(store, lines, 1, h.hosts);
    if !ok {
      StopsEarly(lines, hosts);
      LoadNoRest(store.Model());
      return;
    }
    ok, shards, replicas := RecoverRest(store, lines);
  }

  lemma LoadNoRest(s: State)
    ensures LoadRest(s, [], []) == s
  {
  }

  lemma StopsEarly(lines: seq<Line>, hosts: nat)
    requires Headed(lines) && hosts < lines[0].header.hosts
    requires AreHosts(lines, 1, hosts) && !AreHosts(lines, 1, hosts + 1)
    ensures StopsAt(lines, hosts, 0, 0)
  {
  }

  lemma StopsLater(lines: seq<Line>, shards: nat, replicas: nat)
    requires Headed(lines) && AreHosts(lines, 1, lines[0].header.hosts)
    requires var h, from := lines[0].header, 1 + lines[0].header.hosts;
             && shards <= h.shards && AreShards(lines, from, shards)
             && (shards < h.shards ==> !AreShards(lines, from, shards + 1) && replicas == 0)
             && replicas <= h.replicas && (replicas == 0 || AreReplicas(lines, from + h.shards, replicas))
             && (shards == h.shards && replicas < h.replicas ==> !AreReplicas(lines, from + h.shards, replicas + 1))
    ensures StopsAt(lines, lines[0].header.hosts, shards, replicas)
  {
  }

  method RecoverRest(store: Store, lines: seq<Line>) returns (ok: bool, ghost shards: nat, ghost replicas: nat)
    requires Headed(lines) && AreHosts(lines, 1, lines[0].header.hosts)
    modifies store
    ensures StopsAt(lines, lines[0].header.hosts, shards, replicas)
    ensures var h := lines[0].header; ok <==> shards == h.shards && replicas == h.replicas
    ensures var from, n := 1 + lines[0].header.hosts, lines[0].header.shards;
            store.Model() == LoadRest(old(store.Model()), ShardsUpTo(lines, from, shards),
                                      ReplicasUpTo(lines, from + n, replicas))
  {
    var h := lines[0].header;
    var from := 1 + h.hosts;
    EmptyRows(lines);
    replicas := 0;
    ok, shards := RecoverShards(store, lines, from, h.shards);
    LoadShardsReplicas(old(store.Model()), ShardsUpTo(lines, from, shards));
    if ok {
      ok, replicas := RecoverReplicas(store, lines, from + h.shards, h.replicas);
    }
    StopsLater(lines, shards, replicas);
  }

  /******* Replaying *******/

  ghost predicate NamesComplete(s: State) {
    s.names == NamesOf(s.shards)
  }

  /** A restart from a snapshot is invisible to every later proposer exactly when, at the time of
      the snapshot, every stored shard name was indexed. */
  lemma RestartInvisibleExactly(s: State)
    requires Inv(s) && s.index + 1 < U64_LIMIT
    ensures (forall log :: Ordered(log, s.index) ==> Replay(Recovered(s), log).results == Replay(s, log).results)
            <==> NamesComplete(s)
  {
    if NamesComplete(s) {
      assert Recovered(s) == s;
    } else {
      var n :| n in NamesOf(s.shards) && n !in s.names;
      var shard := Shard(0, 0, 0, "", NilTags, 0, n, 0, "");
      var e := Entry(s.index + 1, ShardPost(shard));
      assert Ordered([e], s.index);
      ReplayOne(s, e);
      ReplayOne(Recovered(s), e);
      assert Apply(s, e).result.data == "" != Apply(Recovered(s), e).result.data;
      assert Replay(Recovered(s), [e]).results[0] != Replay(s, [e]).results[0];
    }
  }

  /** Under that condition the whole replay, tables and counters included, is the same. */
  lemma SnapshotReplay(log: seq<Entry>, n: nat)
    requires n <= |log| && Replay(EMPTY, log[..n]).Up?
    requires NamesComplete(Replay(EMPTY, log[..n]).state)
    ensures var first := Replay(EMPTY, log[..n]);
            var rest := Replay(Recovered(first.state), log[n..]);
            Replay(EMPTY, log) == rest.(results := first.results + rest.results)
  {
    assert log == log[..n] + log[n..];
    ReplaySplit(Apply, EMPTY, log[..n], log[n..]);
    var s := Replay(EMPTY, log[..n]).state;
    assert Recovered(s) == s;
  }

  /******* When the index stays complete *******/

  ghost predicate NamesDistinct(s: State) {
    forall j, k :: j in s.shards && k in s.shards && s.shards[j].name == s.shards[k].name != "" ==> j == k
  }

  /** Names are distinct and the index holds them all. */
  ghost predicate Exact(s: State) {
    NamesComplete(s) && NamesDistinct(s)
  }

  /** A put that gives a shard the name of another stored shard. */
  ghost predicate Collides(s: State, cmd: Command) {
    && cmd.ShardPut?
    && cmd.shard.name != ""
    && (cmd.shard.id in s.shards || cmd.shard.id == 0 == s.shardCounter)
    && exists k :: k in s.shards && k != cmd.shard.id && s.shards[k].name == cmd.shard.name
  }

  lemma PutShardExact(s: State, row: Shard)
    requires Exact(s)
    requires forall k :: k in s.shards && k != row.id ==> s.shards[k].name != row.name || row.name == ""
    ensures Exact(PutShard(s, row))
  {
    var t := PutShard(s, row);
    forall n | n in NamesOf(t.shards) ensures n in t.names {
      var k :| k in t.shards && t.shards[k].name != "" && t.shards[k].name == n;
      if k != row.id {
        assert s.shards[k].name in NamesOf(s.shards);
      }
    }
    forall n | n in t.names ensures n in NamesOf(t.shards) {
      if n != row.name {
        var k :| k in s.shards && s.shards[k].name != "" && s.shards[k].name == n;
        assert k in t.shards && t.shards[k].name == n;
      } else {
        assert t.shards[row.id].name == n;
      }
    }
  }

  lemma DropShardExact(s: State, id: nat)
    requires Exact(s) && id in s.shards
    ensures Exact(DropShard(s, id))
  {
    var t := DropShard(s, id);
    forall n | n in NamesOf(t.shards) ensures n in t.names {
      var k :| k in t.shards && t.shards[k].name != "" && t.shards[k].name == n;
      assert s.shards[k].name in NamesOf(s.shards);
    }
    forall n | n in t.names ensures n in NamesOf(t.shards) {
      var k :| k in s.shards && s.shards[k].name != "" && s.shards[k].name == n;
      assert k in t.shards && t.shards[k].name == n;
    }
  }

  lemma TouchShardsExact(s: State, ids: set<nat>, index: nat)
    requires Exact(s)
    ensures Exact(TouchShards(s, ids, index))
  {
    var t := TouchShards(s, ids, index);
    assert NamesIn(s.shards, ids) <= NamesOf(s.shards);
    forall n | n in s.names ensures n in NamesOf(t.shards) {
      var k :| k in s.shards && s.shards[k].name != "" && s.shards[k].name == n;
      assert k in t.shards && t.shards[k].name == n;
    }
    forall n | n in NamesOf(t.shards) ensures n in s.names {
      var k :| k in t.shards && t.shards[k].name != "" && t.shards[k].name == n;
      assert s.shards[k].name in NamesOf(s.shards);
    }
  }

  /** Exactness speaks of the shard table and the index only. */
  lemma ExactFrame(s: State, t: State)
    requires Exact(s) && t.shards == s.shards && t.names == s.names
    ensures Exact(t)
  {
  }

  lemma TouchingCommandExact(s: State, e: Entry)
    requires Exact(s) && ApplyCommand(s, e.cmd, e.index).Next?
    requires e.cmd.HostPut? || e.cmd.HostDel? || e.cmd.HostTags? || e.cmd.ShardTouch?
    ensures Exact(ApplyCommand(s, e.cmd, e.index).state)
  {
    var ids := match e.cmd
      case HostPut(host) => ShardsOf(s.replicas, OnHost(s.replicas, host.id))
      case HostDel(host) => ShardsOf(s.replicas, OnHost(s.replicas, host))
      case HostTags(_, host, _) => ShardsOf(s.replicas, OnHost(s.replicas, host))
      case ShardTouch(id) => {id};
    TouchShardsExact(s, ids, e.index);
  }

  lemma ReplicaCommandExact(s: State, e: Entry)
    requires Exact(s) && ApplyCommand(s, e.cmd, e.index).Next?
    requires || e.cmd.ReplicaPost? || e.cmd.ReplicaStatus? || e.cmd.ReplicaPut? || e.cmd.ReplicaDel?
             || e.cmd.ReplicaTags?
    ensures Exact(ApplyCommand(s, e.cmd, e.index).state)
  {
    var t := ApplyCommand(s, e.cmd, e.index).state;
    if e.cmd.ReplicaPost? {
      TouchShardsExact(s, {e.cmd.replica.shardId}, e.index);
    } else {
      var r := if e.cmd.ReplicaPut? then e.cmd.replica.id else e.cmd.replicaId;
      if r in s.replicas {
        TouchShardsExact(s, {s.replicas[r].shardId}, e.index);
        if e.cmd.ReplicaPut? {
          TouchShardsExact(s, {e.cmd.replica.shardId}, e.index);
        }
      }
    }
  }

  lemma ShardPostExact(s: State, shard: Shard, index: nat)
    requires IdsBounded(s) && Exact(s) && s.index < index < U64_LIMIT
    ensures Exact(ApplyShardPost(s, shard, index).state)
  {
    if !(shard.name != "" && shard.name in s.names) {
      var id := Incr(s.shardCounter);
      var row := shard.(id := id, created := index, updated := index);
      assert forall k :: k in s.shards && s.shards[k].name != "" ==> s.shards[k].name in NamesOf(s.shards);
      PutShardExact(s, row);
      ExactFrame(PutShard(s, row), PutShard(s.(shardCounter := id), row));
    }
  }

  lemma StoreShardExact(s: State, row: Shard, index: nat, value: nat)
    requires Exact(s) && StoreShard(s, row, index, value).Next?
    requires forall k :: k in s.shards && k != row.id ==> s.shards[k].name != row.name || row.name == ""
    ensures Exact(StoreShard(s, row, index, value).state)
  {
    PutShardExact(s, row);
  }

  lemma ShardCommandExact(s: State, e: Entry)
    requires Keyed(s) && Exact(s) && !Collides(s, e.cmd)
    requires ApplyCommand(s, e.cmd, e.index).Next?
    requires e.cmd.ShardPut? || e.cmd.ShardStatus? || e.cmd.ShardLeader? || e.cmd.ShardTags?
    ensures Exact(ApplyCommand(s, e.cmd, e.index).state)
  {
    match e.cmd
    case ShardPut(shard) =>
      if shard.id in s.shards {
        var was := s.shards[shard.id];
        var tags := WriteTags(TagsSetNX, shard.tags, was.tags.Entries()).tags;
        var row := shard.(created := was.created, updated := e.index, tags := tags);
        StoreShardExact(s, row, e.index, shard.id);
      } else if shard.id == 0 && s.shardCounter == 0 {
        StoreShardExact(s, shard.(created := e.index, updated := e.index), e.index, shard.id);
      }
    case ShardStatus(id, status) =>
      if id in s.shards {
        StoreShardExact(s, s.shards[id].(status := status, updated := e.index), e.index, 1);
      }
    case ShardLeader(id, leader, term) =>
      if id in s.shards {
        PutShardExact(s, s.shards[id].(leader := leader, term := term, updated := e.index));
      }
    case ShardTags(op, id, tags) =>
      if id in s.shards {
        var write := WriteTags(op, s.shards[id].tags, tags.Entries());
        if write.written {
          StoreShardExact(s, s.shards[id].(tags := write.tags), e.index, 1);
        }
      }
  }

  /** From an exact state, a colliding put is the one command that spoils exactness. */
  lemma ExactPreservedExactly(s: State, e: Entry)
    requires Inv(s) && Exact(s) && Fits(s, e) && Apply(s, e).Next?
    ensures Exact(Apply(s, e).state) <==> !Collides(s, e.cmd)
  {
    var t := ApplyCommand(s, e.cmd, e.index).state;
    if Collides(s, e.cmd) {
      var k :| k in s.shards && k != e.cmd.shard.id && s.shards[k].name == e.cmd.shard.name;
      assert t.shards[k].name == t.shards[e.cmd.shard.id].name != "";
    } else {
      match e.cmd
      case HostPut(_) => TouchingCommandExact(s, e);
      case HostDel(_) => TouchingCommandExact(s, e);
      case HostTags(_, _, _) => TouchingCommandExact(s, e);
      case ShardTouch(_) => TouchingCommandExact(s, e);
      case ShardDel(id) => if id in s.shards { DropShardExact(s, id); }
      case ShardPost(shard) => ShardPostExact(s, shard, e.index);
      case ShardPut(_) => ShardCommandExact(s, e);
      case ShardStatus(_, _) => ShardCommandExact(s, e);
      case ShardLeader(_, _, _) => ShardCommandExact(s, e);
      case ShardTags(_, _, _) => ShardCommandExact(s, e);
      case Unrecognized =>
      case Malformed =>
      case _ => ReplicaCommandExact(s, e);
      ExactFrame(t, Apply(s, e).state);
    }
  }

  /** A run without colliding puts is as if nothing had ever been restarted: whatever the restarts and
      their snapshots, each state is the replay of the whole log, with an exact index. */
  lemma {:induction false} NamesStayComplete(es: seq<Event>, ss: seq<State>, i: nat)
    requires IsRun(es, ss) && i <= |es|
    requires forall m :: 0 <= m < i && es[m].Commit? ==> !Collides(ss[m], es[m].entry.cmd)
    ensures Exact(ss[i])
    ensures Replay(EMPTY, Since(es, 0, i)).Up? && Replay(EMPTY, Since(es, 0, i)).state == ss[i]
    ensures i > 0 && es[i - 1].Restart? ==> ss[i] == ss[i - 1]
  {
    if i > 0 {
      NamesStayComplete(es, ss, i - 1);
      Reachable(es, ss, i - 1);
      assert StepAt(es, ss, i - 1);
      match es[i - 1]
      case Commit(e) =>
        ExactPreservedExactly(ss[i - 1], e);
        ReplaySnoc(EMPTY, Since(es, 0, i - 1), e);
      case Restart(n) =>
        NamesStayComplete(es, ss, n);
        assert Recovered(ss[n]) == ss[n];
        SinceSplit(es, n, i - 1);
        ReplayOn(EMPTY, Since(es, 0, n), Since(es, n, i - 1));
    }
  }

  lemma ReplaySnoc(s: State, log: seq<Entry>, e: Entry)
    requires Replay(s, log).Up? && Apply(Replay(s, log).state, e).Next?
    ensures Replay(s, log + [e]).Up? && Replay(s, log + [e]).state == Apply(Replay(s, log).state, e).state
  {
    var t := Replay(s, log).state;
    ReplayOn(s, log, [e]);
    assert [e][1..] == [];
    assert ReplayWith(Apply, t, [e]).Up? && ReplayWith(Apply, t, [e]).state == Apply(t, e).state;
  }

  /******* Which restarts keep the tables *******/

  /** A post whose name is in one index and not in the other: one registry takes it, the other refuses. */
  predicate Disputed(a: State, b: State, e: Entry) {
    e.cmd.ShardPost? && (e.cmd.shard.name in a.names) != (e.cmd.shard.name in b.names)
  }

  /** Two registries that differ in their name index at most. */
  ghost predicate Twins(a: State, b: State) {
    SameTables(a, b) && "" !in a.names && "" !in b.names
  }

  ghost predicate TwinSteps(x: Step, y: Step) {
    match x
    case Crash => y.Crash?
    case Next(a, result) => y.Next? && Twins(a, y.state) && y.result == result
  }

  lemma HostCommandTwins(a: State, b: State, cmd: Command, index: nat)
    requires Twins(a, b)
    requires cmd.HostPut? || cmd.HostDel? || cmd.HostTags? || cmd.Unrecognized? || cmd.Malformed?
    ensures TwinSteps(ApplyCommand(a, cmd, index), ApplyCommand(b, cmd, index))
  {
  }

  lemma ReplicaCommandTwins(a: State, b: State, cmd: Command, index: nat)
    requires Twins(a, b)
    requires cmd.ReplicaPost? || cmd.ReplicaStatus? || cmd.ReplicaPut? || cmd.ReplicaDel? || cmd.ReplicaTags?
    ensures TwinSteps(ApplyCommand(a, cmd, index), ApplyCommand(b, cmd, index))
  {
  }

  lemma ShardCommandTwins(a: State, b: State, cmd: Command, index: nat)
    requires Twins(a, b)
    requires cmd.ShardTouch? || cmd.ShardPut? || cmd.ShardStatus? || cmd.ShardLeader? || cmd.ShardDel? || cmd.ShardTags?
    ensures TwinSteps(ApplyCommand(a, cmd, index), ApplyCommand(b, cmd, index))
  {
  }

  lemma ShardPostTwins(a: State, b: State, e: Entry)
    requires Twins(a, b) && Inv(a) && Fits(a, e) && e.cmd.ShardPost?
    ensures !Disputed(a, b, e) ==> TwinSteps(ApplyCommand(a, e.cmd, e.index), ApplyCommand(b, e.cmd, e.index))
    ensures Disputed(a, b, e) ==>
              && ApplyCommand(a, e.cmd, e.index).Next? && ApplyCommand(b, e.cmd, e.index).Next?
              && ApplyCommand(a, e.cmd, e.index).state.shardCounter
                 != ApplyCommand(b, e.cmd, e.index).state.shardCounter
  {
  }

  /** One entry keeps two such registries alike, with the same answer, exactly if it is not disputed. */
  lemma TwinStep(a: State, b: State, e: Entry)
    requires Twins(a, b) && Inv(a) && Fits(a, e) && Apply(a, e).Next?
    ensures Apply(b, e).Next?
    ensures SameTables(Apply(a, e).state, Apply(b, e).state) <==> !Disputed(a, b, e)
    ensures !Disputed(a, b, e) ==>
              Twins(Apply(a, e).state, Apply(b, e).state) && Apply(b, e).result == Apply(a, e).result
  {
    var cmd := e.cmd;
    if cmd.ShardPost? {
      ShardPostTwins(a, b, e);
    } else if cmd.HostPut? || cmd.HostDel? || cmd.HostTags? || cmd.Unrecognized? || cmd.Malformed? {
      HostCommandTwins(a, b, cmd, e.index);
    } else if cmd.ReplicaPost? || cmd.ReplicaStatus? || cmd.ReplicaPut? || cmd.ReplicaDel? || cmd.ReplicaTags? {
      ReplicaCommandTwins(a, b, cmd, e.index);
    } else {
      ShardCommandTwins(a, b, cmd, e.index);
    }
  }

  /** Tables and counters agree before and after every entry of the log. */
  ghost predicate Alike(a: State, b: State, log: seq<Entry>)
    decreases |log|
  {
    && SameTables(a, b)
    && (log != [] ==>
          && Apply(a, log[0]).Next? && Apply(b, log[0]).Next?
          && Alike(Apply(a, log[0]).state, Apply(b, log[0]).state, log[1..]))
  }

  /** No post of the log meets a name that is in one of the two indexes only. */
  ghost predicate Undisputed(a: State, b: State, log: seq<Entry>)
    decreases |log|
  {
    log != [] ==>
      && !Disputed(a, b, log[0])
      && (Apply(a, log[0]).Next? && Apply(b, log[0]).Next? ==>
            Undisputed(Apply(a, log[0]).state, Apply(b, log[0]).state, log[1..]))
  }

  /** Exactly such a post makes two registries part. Without one, the log takes both to the same tables
      and counters and gives the same answers. */
  lemma {:induction false} ReplayKeepsExactly(a: State, b: State, log: seq<Entry>)
    requires Twins(a, b) && Inv(a) && Ordered(log, a.index) && Replay(a, log).Up?
    ensures Alike(a, b, log) <==> Undisputed(a, b, log)
    ensures Undisputed(a, b, log) ==>
              && Replay(b, log).Up? && Replay(b, log).results == Replay(a, log).results
              && SameTables(Replay(a, log).state, Replay(b, log).state)
    decreases |log|
  {
    if log != [] {
      ReplayNext(a, log);
      TwinStep(a, b, log[0]);
      if !Disputed(a, b, log[0]) {
        var a', b' := Apply(a, log[0]).state, Apply(b, log[0]).state;
        StepInv(a, log[0]);
        CounterStep(a, log[0]);
        OrderedTail(log, a.index, a'.index);
        ReplayKeepsExactly(a', b', log[1..]);
      }
    }
  }

  /******* Restarts within a run *******/

  /** What a restart from the snapshot at `n` has come to when it has replayed the entries before `m`. */
  ghost function Replaying(es: seq<Event>, ss: seq<State>, n: nat, m: nat): Replayed
    requires |ss| == |es| + 1 && n <= m <= |es|
  {
    Replay(Recovered(ss[n]), Since(es, n, m))
  }

  /** The replay has the tables that the live registry had at `m`. */
  ghost predicate FollowsAt(es: seq<Event>, ss: seq<State>, n: nat, m: nat)
    requires |ss| == |es| + 1 && n <= m <= |es|
  {
    Replaying(es, ss, n, m).Up? && SameTables(ss[m], Replaying(es, ss, n, m).state)
  }

  /** The replay goes through the tables of the live registry, event by event. */
  ghost predicate Follows(es: seq<Event>, ss: seq<State>, n: nat, i: nat)
    requires |ss| == |es| + 1 && n <= i <= |es|
  {
    forall m {:trigger FollowsAt(es, ss, n, m)} :: n <= m <= i ==> FollowsAt(es, ss, n, m)
  }

  /** The entry at `m` is a post whose name only one of the live index and the replay's index has. */
  ghost predicate DisputedAt(es: seq<Event>, ss: seq<State>, n: nat, m: nat)
    requires |ss| == |es| + 1 && n <= m < |es|
  {
    es[m].Commit? && Replaying(es, ss, n, m).Up? && Disputed(ss[m], Replaying(es, ss, n, m).state, es[m].entry)
  }

  ghost predicate NoneDisputed(es: seq<Event>, ss: seq<State>, n: nat, i: nat)
    requires |ss| == |es| + 1 && n <= i <= |es|
  {
    forall m {:trigger DisputedAt(es, ss, n, m)} :: n <= m < i ==> !DisputedAt(es, ss, n, m)
  }

  /** The invariant of the replay, at every event that it gets to. */
  lemma ReplayingInv(es: seq<Event>, ss: seq<State>, n: nat, m: nat)
    requires IsRun(es, ss) && n <= m <= |es| && Replaying(es, ss, n, m).Up?
    ensures Inv(Replaying(es, ss, n, m).state) && Inv(ss[m])
  {
    RunLedger(es, ss, n);
    RunLedger(es, ss, m);
    SinceOrdered(es, n, m);
    RecoveredInv(ss[n], Since(es, 0, n));
    ReplayLedger(Recovered(ss[n]), Since(es, 0, n), Since(es, n, m));
  }

  lemma FitsNext(es: seq<Event>, ss: seq<State>, m: nat)
    requires IsRun(es, ss) && m < |es| && es[m].Commit?
    ensures Inv(ss[m]) && Fits(ss[m], es[m].entry)
  {
    RunLedger(es, ss, m);
    SinceBelow(es, 0, m, m);
    LastBelow(Since(es, 0, m), es[m].entry.index);
  }

  lemma ReplayingSnoc(es: seq<Event>, ss: seq<State>, n: nat, m: nat)
    requires |ss| == |es| + 1 && n <= m < |es| && Replaying(es, ss, n, m).Up?
    ensures es[m].Restart? ==> Replaying(es, ss, n, m + 1) == Replaying(es, ss, n, m)
    ensures es[m].Commit? && Apply(Replaying(es, ss, n, m).state, es[m].entry).Next? ==>
              && Replaying(es, ss, n, m + 1).Up?
              && Replaying(es, ss, n, m + 1).state == Apply(Replaying(es, ss, n, m).state, es[m].entry).state
  {
    if es[m].Commit? && Apply(Replaying(es, ss, n, m).state, es[m].entry).Next? {
      ReplaySnoc(Recovered(ss[n]), Since(es, n, m), es[m].entry);
    }
  }

  /** One event of the run: the replay stays with the live registry exactly if the event is not disputed. */
  lemma FollowStep(es: seq<Event>, ss: seq<State>, n: nat, m: nat)
    requires IsRun(es, ss) && n <= m < |es| && FollowsAt(es, ss, n, m)
    requires es[m].Restart? ==> SameTables(ss[m], ss[m + 1])
    ensures FollowsAt(es, ss, n, m + 1) <==> !DisputedAt(es, ss, n, m)
  {
    ReplayingInv(es, ss, n, m);
    assert StepAt(es, ss, m);
    var b := Replaying(es, ss, n, m).state;
    if es[m].Commit? {
      FitsNext(es, ss, m);
      TwinStep(ss[m], b, es[m].entry);
    }
    ReplayingSnoc(es, ss, n, m);
  }

  lemma {:induction false} FollowsExactly(es: seq<Event>, ss: seq<State>, n: nat, i: nat)
    requires IsRun(es, ss) && n <= i <= |es| && RestartsKeep(es, ss, n, i)
    ensures Follows(es, ss, n, i) <==> NoneDisputed(es, ss, n, i)
    decreases i
  {
    if n == i {
      assert Since(es, n, n) == [];
      assert FollowsAt(es, ss, n, n);
    } else {
      FollowsExactly(es, ss, n, i - 1);
      if Follows(es, ss, n, i - 1) {
        assert FollowsAt(es, ss, n, i - 1);
        FollowStep(es, ss, n, i - 1);
        FollowsMore(es, ss, n, i);
      } else {
        FollowsLess(es, ss, n, i);
      }
    }
  }

  lemma FollowsMore(es: seq<Event>, ss: seq<State>, n: nat, i: nat)
    requires |ss| == |es| + 1 && n < i <= |es| && Follows(es, ss, n, i - 1) && NoneDisputed(es, ss, n, i - 1)
    requires FollowsAt(es, ss, n, i) <==> !DisputedAt(es, ss, n, i - 1)
    ensures Follows(es, ss, n, i) <==> NoneDisputed(es, ss, n, i)
  {
    if !DisputedAt(es, ss, n, i - 1) {
      forall m | n <= m <= i ensures FollowsAt(es, ss, n, m) {
      }
    }
  }

  lemma FollowsLess(es: seq<Event>, ss: seq<State>, n: nat, i: nat)
    requires |ss| == |es| + 1 && n < i <= |es| && !Follows(es, ss, n, i - 1) && !NoneDisputed(es, ss, n, i - 1)
    ensures !Follows(es, ss, n, i) && !NoneDisputed(es, ss, n, i)
  {
    var m :| n <= m <= i - 1 && !FollowsAt(es, ss, n, m);
    var d :| n <= d < i - 1 && DisputedAt(es, ss, n, d);
    assert !FollowsAt(es, ss, n, m) && DisputedAt(es, ss, n, d);
  }

  /** A restart, whatever table-keeping restarts lie between it and its snapshot, goes through the live
      registry's tables, event by event, if and only if no post since the snapshot meets a name that the
      live index and the replay's index disagree on; it then ends in them. */
  lemma RestartKeepsExactly(es: seq<Event>, ss: seq<State>, i: nat)
    requires IsRun(es, ss) && i < |es| && es[i].Restart? && es[i].from <= i && RestartsKeep(es, ss, es[i].from, i)
    ensures Follows(es, ss, es[i].from, i) <==> NoneDisputed(es, ss, es[i].from, i)
    ensures Follows(es, ss, es[i].from, i) ==> SameTables(ss[i], ss[i + 1])
  {
    FollowsExactly(es, ss, es[i].from, i);
    assert StepAt(es, ss, i);
    if Follows(es, ss, es[i].from, i) {
      assert FollowsAt(es, ss, es[i].from, i);
    }
  }

  /** The event is no restart, or one that goes through the live registry's tables. */
  ghost predicate FollowsBack(es: seq<Event>, ss: seq<State>, i: nat)
    requires |ss| == |es| + 1 && i < |es|
  {
    es[i].Restart? ==> es[i].from <= i && Follows(es, ss, es[i].from, i)
  }

  /** The event is no restart, or one that meets no disputed post. */
  ghost predicate UndisputedBack(es: seq<Event>, ss: seq<State>, i: nat)
    requires |ss| == |es| + 1 && i < |es|
  {
    es[i].Restart? ==> es[i].from <= i && NoneDisputed(es, ss, es[i].from, i)
  }

  ghost predicate AllFollow(es: seq<Event>, ss: seq<State>, j: nat)
    requires |ss| == |es| + 1 && j <= |es|
  {
    forall i {:trigger FollowsBack(es, ss, i)} :: 0 <= i < j ==> FollowsBack(es, ss, i)
  }

  ghost predicate AllUndisputed(es: seq<Event>, ss: seq<State>, j: nat)
    requires |ss| == |es| + 1 && j <= |es|
  {
    forall i {:trigger UndisputedBack(es, ss, i)} :: 0 <= i < j ==> UndisputedBack(es, ss, i)
  }

  lemma BackExactly(es: seq<Event>, ss: seq<State>, i: nat)
    requires IsRun(es, ss) && i < |es| && RestartsKeep(es, ss, 0, i)
    ensures FollowsBack(es, ss, i) <==> UndisputedBack(es, ss, i)
    ensures FollowsBack(es, ss, i) ==> RestartsKeep(es, ss, 0, i + 1)
  {
    assert StepAt(es, ss, i);
    if es[i].Restart? {
      RestartKeepsExactly(es, ss, i);
    }
  }

  /** Whole runs: all restarts go through the live tables if and only if none meets a disputed post, and
      then no restart of the run changes the tables. */
  lemma {:induction false} RunKeepsExactly(es: seq<Event>, ss: seq<State>, j: nat)
    requires IsRun(es, ss) && j <= |es|
    ensures AllFollow(es, ss, j) <==> AllUndisputed(es, ss, j)
    ensures AllFollow(es, ss, j) ==> RestartsKeep(es, ss, 0, j)
  {
    if j > 0 {
      RunKeepsExactly(es, ss, j - 1);
      if AllFollow(es, ss, j - 1) {
        BackExactly(es, ss, j - 1);
      }
      assert AllFollow(es, ss, j) <==> AllFollow(es, ss, j - 1) && FollowsBack(es, ss, j - 1);
      assert AllUndisputed(es, ss, j) <==> AllUndisputed(es, ss, j - 1) && UndisputedBack(es, ss, j - 1);
    }
  }
}
