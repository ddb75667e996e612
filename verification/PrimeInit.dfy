/**
 The first entries of a new registry: the agent that found every peer unnumbered stores the prime
 shard, all hosts and one prime replica per host. Replica ids are counters of the registry, member
 numbers come from the bootstrap protocol; they must coincide.
 */
module PrimeInit {
  import opened Registry
  import opened RegistryRuns
  import opened Places
  import opened Bootstrap

  /** Events of others that take nothing away: no replica is posted, put or deleted, no host and no
      shard is deleted. */
  predicate Harmless(s: State, e: Entry) {
    && s.index < e.index < U64_LIMIT && Apply(s, e).Next?
    && !WritesRow(e.cmd) && !e.cmd.ReplicaDel? && !e.cmd.HostDel? && !e.cmd.ShardDel?
  }

  /** Hosts and shards remain, replicas remain where they are, and no replica id is given out. */
  ghost predicate KeepsRows(s: State, t: State) {
    && s.hosts.Keys <= t.hosts.Keys && s.shards.Keys <= t.shards.Keys
    && t.replicaCounter == s.replicaCounter
    && t.replicas.Keys == s.replicas.Keys
    && (forall r :: r in s.replicas ==>
          && t.replicas[r].hostId == s.replicas[r].hostId && t.replicas[r].shardId == s.replicas[r].shardId
          && t.replicas[r].isNonVoting == s.replicas[r].isNonVoting)
  }

  ghost predicate Undisturbed(s: State, t: State) {
    Inv(t) && KeepsRows(s, t)
  }

  lemma UndisturbedTrans(s: State, t: State, u: State)
    requires Undisturbed(s, t) && Undisturbed(t, u)
    ensures Undisturbed(s, u)
  {
  }

  lemma HostCommandKeeps(s: State, e: Entry)
    requires e.cmd.HostPut? || e.cmd.HostTags? || e.cmd.Unrecognized? || e.cmd.Malformed?
    requires ApplyCommand(s, e.cmd, e.index).Next?
    ensures KeepsRows(s, ApplyCommand(s, e.cmd, e.index).state)
  {
  }

  lemma ShardCommandKeeps(s: State, e: Entry)
    requires e.cmd.ShardPost? || e.cmd.ShardTouch? || e.cmd.ShardPut? || e.cmd.ShardStatus? || e.cmd.ShardLeader?
             || e.cmd.ShardTags?
    requires ApplyCommand(s, e.cmd, e.index).Next?
    ensures KeepsRows(s, ApplyCommand(s, e.cmd, e.index).state)
  {
  }

  lemma ReplicaCommandKeeps(s: State, e: Entry)
    requires Keyed(s) && (e.cmd.ReplicaStatus? || e.cmd.ReplicaTags?)
    requires ApplyCommand(s, e.cmd, e.index).Next?
    ensures KeepsRows(s, ApplyCommand(s, e.cmd, e.index).state)
  {
  }

  lemma HarmlessKeeps(s: State, e: Entry)
    requires Inv(s) && Harmless(s, e)
    ensures Undisturbed(s, Apply(s, e).state)
  {
    StepInv(s, e);
    if e.cmd.ReplicaStatus? || e.cmd.ReplicaTags? {
      ReplicaCommandKeeps(s, e);
    } else if e.cmd.HostPut? || e.cmd.HostTags? || e.cmd.Unrecognized? || e.cmd.Malformed? {
      HostCommandKeeps(s, e);
    } else {
      ShardCommandKeeps(s, e);
    }
    var t, u := Apply(s, e).state, ApplyCommand(s, e.cmd, e.index).state;
    assert t.hosts == u.hosts && t.shards == u.shards;
    assert t.replicas == u.replicas && t.replicaCounter == u.replicaCounter;
  }

  /** Let others go on for a while. Events that would disturb are not considered. */
  method Others(s: State, entries: seq<Entry>) returns (t: State)
    requires Inv(s)
    ensures Undisturbed(s, t)
    ensures entries == [] ==> t == s
  {
    t := s;
    for i := 0 to |entries|
      invariant Undisturbed(s, t)
      invariant i == 0 ==> t == s
    {
      if Harmless(t, entries[i]) {
        HarmlessKeeps(t, entries[i]);
        UndisturbedTrans(s, t, Apply(t, entries[i]).state);
        t := Apply(t, entries[i]).state;
      }
    }
  }

  /** What others do before a proposal, and whether the proposal gets through. */
  datatype Turn = Turn(before: seq<Entry>, accepted: bool)

  function TurnAt(turns: seq<Turn>, i: nat): Turn {
    if i < |turns| then turns[i] else Turn([], true)
  }

  predicate Quiet(turn: Turn) {
    turn.before == [] && turn.accepted
  }

  ghost predicate AllQuiet(turns: seq<Turn>) {
    forall i {:trigger TurnAt(turns, i)} :: Quiet(TurnAt(turns, i))
  }

  const PRIME_SHARD := Shard(0, 0, 0, "", NilTags, 0, "zongzi", 0, "zongzi://github.com/logbn/zongzi")

  /** The first `n` members are replicas of the prime shard under their own numbers, and no other
      replica exists. */
  ghost predicate Posted(s: State, hosts: seq<string>, n: nat) {
    && n <= |hosts| && s.replicaCounter == n
    && (forall r :: r in s.replicas <==> 1 <= r <= n)
    && (forall r :: r in s.replicas ==>
          s.replicas[r].shardId == 0 && s.replicas[r].hostId == HostAt(hosts, r) && !s.replicas[r].isNonVoting)
  }

  lemma PostedKept(s: State, t: State, hosts: seq<string>, n: nat)
    requires Posted(s, hosts, n) && Undisturbed(s, t)
    ensures Posted(t, hosts, n)
  {
    assert forall r :: r in t.replicas <==> r in s.replicas;
  }

  /** The first three members bootstrap the prime shard, the others join it. */
  function StatusOf(r: nat): string {
    if r <= 3 then BOOTSTRAPPING else JOINING
  }

  function PrimeReplica(host: string): Replica {
    Replica(0, 0, 0, "new", NilTags, host, false, false, 0)
  }

  lemma MembersPosted(s: State, hosts: seq<string>, n: nat)
    requires Posted(s, hosts, n)
    ensures |Members(s.replicas, 0)| == n
  {
    assert forall r :: r in Members(s.replicas, 0) <==> 1 <= r <= n;
    Interval(Members(s.replicas, 0), 1, n);
  }

  lemma PostRow(s: State, host: string, index: nat)
    requires Inv(s) && host in s.hosts && s.index < index < U64_LIMIT
    ensures var step := ApplyReplicaPost(s, PrimeReplica(host), index);
            && step.Next? && step.state.hosts.Keys == s.hosts.Keys && step.state.replicaCounter == s.replicaCounter + 1
            && s.replicaCounter + 1 in step.state.replicas
            && var row := step.state.replicas[s.replicaCounter + 1];
               && row.status == (if |Members(s.replicas, 0)| < 3 then BOOTSTRAPPING else JOINING)
               && !row.isNonVoting
  {
  }

  lemma PostedMore(s: State, t: State, hosts: seq<string>, n: nat)
    requires Posted(s, hosts, n) && n < |hosts| && Stores(s, t, n + 1, 0, hosts[n])
    requires t.replicaCounter == n + 1 && !t.replicas[n + 1].isNonVoting
    ensures Posted(t, hosts, n + 1)
  {
  }

  /** The next post gets the next member number, and the first three bootstrap the shard. */
  lemma PostNext(s: State, hosts: seq<string>, n: nat, index: nat)
    requires Inv(s) && Posted(s, hosts, n) && n < |hosts| && hosts[n] in s.hosts && s.index < index < U64_LIMIT
    ensures var step := ApplyReplicaPost(s, PrimeReplica(hosts[n]), index);
            && step.Next? && step.state.hosts.Keys == s.hosts.Keys
            && Posted(step.state, hosts, n + 1)
            && step.state.replicas[n + 1].status == StatusOf(n + 1)
  {
    PostRow(s, hosts[n], index);
    PostStores(s, PrimeReplica(hosts[n]), index);
    PostedMore(s, ApplyReplicaPost(s, PrimeReplica(hosts[n]), index).state, hosts, n);
    MembersPosted(s, hosts, n);
  }

  /** The registry after the next prime replica is posted. */
  function PostedNext(s: State, host: string): Registry.Step {
    match ApplyReplicaPost(s, PrimeReplica(host), s.index + 1)
    case Crash => Crash
    case Next(t, result) => Next(t.(index := s.index + 1), result)
  }

  lemma PostApplied(s: State, hosts: seq<string>, n: nat)
    requires Inv(s) && Posted(s, hosts, n) && n < |hosts| && hosts[n] in s.hosts && s.index + 1 < U64_LIMIT
    ensures var step := PostedNext(s, hosts[n]);
            && step.Next? && step.state.hosts.Keys == s.hosts.Keys && step.state.index == s.index + 1
            && Posted(step.state, hosts, n + 1)
            && step.state.replicas[n + 1].status == StatusOf(n + 1)
  {
    var index := s.index + 1;
    PostNext(s, hosts, n, index);
    PostedIndex(ApplyReplicaPost(s, PrimeReplica(hosts[n]), index).state, hosts, n + 1, index);
  }

  lemma PostInv(s: State, host: string)
    requires Inv(s) && s.index + 1 < U64_LIMIT && PostedNext(s, host).Next?
    ensures Inv(PostedNext(s, host).state)
  {
    PostUnfolds(s, host);
    StepInv(s, Entry(s.index + 1, ReplicaPost(PrimeReplica(host))));
  }

  lemma PostedIndex(s: State, hosts: seq<string>, n: nat, index: nat)
    requires Posted(s, hosts, n)
    ensures Posted(s.(index := index), hosts, n)
  {
  }

  lemma PostUnfolds(s: State, host: string)
    ensures PostedNext(s, host) == Apply(s, Entry(s.index + 1, ReplicaPost(PrimeReplica(host))))
  {
  }

  /** Propose a host or the prime shard after others had their turn. A panic of the registry counts as
      a failure. */
  method ProposeRow(s: State, cmd: Command, turn: Turn) returns (t: State, ok: bool, ghost before: State)
    requires Inv(s) && (cmd.HostPut? || cmd.ShardPut?)
    ensures Undisturbed(s, before) && Undisturbed(s, t) && (Quiet(turn) ==> before == s)
    ensures ok ==> Commits(before, cmd, t)
    ensures Quiet(turn) && s.index + 1 < U64_LIMIT && !Panics(s, cmd) ==> ok && t.index == s.index + 1
  {
    t := Others(s, turn.before);
    before := t;
    var e := Entry(t.index + 1, cmd);
    CrashExactly(t, e);
    CommitsAt(t, cmd);
    ok := turn.accepted && Harmless(t, e);
    if ok {
      HarmlessKeeps(t, e);
      UndisturbedTrans(s, t, Apply(t, e).state);
      t := Apply(t, e).state;
    }
  }

  /** The command is committed right after `s`. */
  ghost predicate Commits(s: State, cmd: Command, t: State) {
    Apply(s, Entry(s.index + 1, cmd)).Next? && t == Apply(s, Entry(s.index + 1, cmd)).state
  }

  /** The prime shard's row is as it was put, and the given hosts are new and have their addresses. */
  ghost predicate Furnished(s: State, ids: set<string>, address: string -> string) {
    && 0 in s.shards && s.shards[0].name == "zongzi" && s.shards[0].shardType == "zongzi://github.com/logbn/zongzi"
    && (forall h :: h in ids ==> h in s.hosts && s.hosts[h].apiAddress == address(h) && s.hosts[h].status == "new")
  }

  /** The registry takes a put of the prime shard. */
  predicate TakesPrime(s: State) {
    0 in s.shards || s.shardCounter == 0
  }

  lemma PrimePutStores(s: State, t: State, address: string -> string)
    requires Commits(s, ShardPut(PRIME_SHARD), t) && TakesPrime(s)
    ensures Furnished(t, {}, address)
  {
  }

  lemma HostPutFurnishes(s: State, id: string, t: State, ids: set<string>, address: string -> string)
    requires Commits(s, HostPut(NewHost(id, address(id))), t)
    ensures id in t.hosts
    ensures Furnished(s, ids, address) ==> Furnished(t, ids + {id}, address)
  {
  }

  lemma PostFurnishes(s: State, hosts: seq<string>, n: nat, t: State, ids: set<string>, address: string -> string)
    requires Posts(s, hosts, n, t)
    ensures t.shards.Keys == s.shards.Keys
    ensures Furnished(s, ids, address) ==> Furnished(t, ids, address)
  {
  }

  lemma CommitsAt(s: State, cmd: Command)
    requires cmd.HostPut? || cmd.ShardPut?
    ensures var step := Apply(s, Entry(s.index + 1, cmd)); step.Next? ==> step.state.index == s.index + 1
  {
  }

  /** Propose the replica of the next member. */
  method ProposeReplica(s: State, ghost hosts: seq<string>, n: nat, host: string, turn: Turn)
    returns (t: State, ok: bool, ghost before: State)
    requires Inv(s) && Posted(s, hosts, n) && n < |hosts| && host == hosts[n] && host in s.hosts
    ensures Inv(t) && s.hosts.Keys <= t.hosts.Keys
    ensures Undisturbed(s, before) && (Quiet(turn) ==> before == s) && (!ok ==> t == before)
    ensures ok ==> Posted(t, hosts, n + 1) && Posts(before, hosts, n, t)
    ensures Quiet(turn) && s.index + 1 < U64_LIMIT ==> ok && t.index == s.index + 1
  {
    var u := Others(s, turn.before);
    PostedKept(s, u, hosts, n);
    t, ok, before := u, false, u;
    if turn.accepted && u.index + 1 < U64_LIMIT {
      PostApplied(u, hosts, n);
      PostInv(u, host);
      PostOthers(u, hosts, n);
      t, ok := PostedNext(u, host).state, true;
    }
  }

  /** Committing the post of member `n + 1` takes `s` to `t`: it gets that number, the status that goes
      with it, and no other replica changes. */
  ghost predicate Posts(s: State, hosts: seq<string>, n: nat, t: State) {
    && n < |hosts|
    && Apply(s, Entry(s.index + 1, ReplicaPost(PrimeReplica(hosts[n])))) == Next(t, Result(n + 1, ""))
    && n + 1 in t.replicas && t.replicas[n + 1].status == StatusOf(n + 1)
    && (forall r :: r in s.replicas ==> r in t.replicas && t.replicas[r] == s.replicas[r])
  }

  lemma PostOthers(s: State, hosts: seq<string>, n: nat)
    requires Inv(s) && Posted(s, hosts, n) && n < |hosts| && hosts[n] in s.hosts && s.index + 1 < U64_LIMIT
    ensures PostedNext(s, hosts[n]).Next? && Posts(s, hosts, n, PostedNext(s, hosts[n]).state)
  {
    PostApplied(s, hosts, n);
    PostUnfolds(s, hosts[n]);
    PostStores(s, PrimeReplica(hosts[n]), s.index + 1);
    PostReports(s, hosts[n]);
  }

  lemma PostReports(s: State, host: string)
    requires Inv(s) && s.index + 1 < U64_LIMIT && PostedNext(s, host).Next?
    ensures PostedNext(s, host).result == Result(s.replicaCounter + 1, "")
  {
  }

  function NewHost(id: string, address: string): Host {
    Host(id, 0, 0, "new", Tags(map[]), address, "", [])
  }

  method AddHost(s: State, ghost hosts: seq<string>, id: string, address: string -> string, turn: Turn, ghost ids: set<string>)
    returns (t: State, ok: bool)
    requires Inv(s) && Posted(s, hosts, 0)
    ensures Inv(t) && Posted(t, hosts, 0) && s.hosts.Keys <= t.hosts.Keys && s.shards.Keys <= t.shards.Keys
    ensures ok ==> id in t.hosts
    ensures Quiet(turn) && s.index + 1 < U64_LIMIT ==> ok && t.index == s.index + 1
    ensures Quiet(turn) && ok && Furnished(s, ids, address) ==> Furnished(t, ids + {id}, address)
  {
    ghost var before;
    t, ok, before := ProposeRow(s, HostPut(NewHost(id, address(id))), turn);
    PostedKept(s, t, hosts, 0);
    if ok {
      HostPutFurnishes(before, id, t, ids, address);
    }
  }

  /** All members but those in `rest` are stored and in line. */
  ghost predicate Lined(lined: seq<string>, s: State, hosts: seq<string>, rest: set<nat>) {
    && |lined| == |hosts|
    && (forall k: nat {:trigger HostAt(lined, k)} :: 1 <= k <= |hosts| && k !in rest ==>
          HostAt(lined, k) == HostAt(hosts, k) && HostAt(hosts, k) in s.hosts)
  }

  lemma LinedNext(lined: seq<string>, s: State, t: State, hosts: seq<string>, rest: set<nat>, k: nat)
    requires Lined(lined, s, hosts, rest) && s.hosts.Keys <= t.hosts.Keys && 1 <= k <= |hosts| && hosts[k - 1] in t.hosts
    ensures Lined(lined[k - 1 := hosts[k - 1]], t, hosts, rest - {k})
  {
    var more := lined[k - 1 := hosts[k - 1]];
    forall j: nat | 1 <= j <= |hosts| && j !in rest - {k}
      ensures HostAt(more, j) == HostAt(hosts, j) && HostAt(hosts, j) in t.hosts
    {
      assert j != k ==> HostAt(lined, j) == HostAt(hosts, j);
    }
  }

  lemma LinedAll(lined: seq<string>, s: State, hosts: seq<string>)
    requires Lined(lined, s, hosts, {})
    ensures lined == hosts && HostsIn(s, hosts)
  {
    forall i | 0 <= i < |hosts| ensures lined[i] == hosts[i] && hosts[i] in s.hosts {
      assert HostAt(lined, i + 1) == lined[i];
    }
  }

  /** Store the hosts in whatever order the map is walked, and line them up by member number. */
  method AddHosts(s: State, members: map<nat, string>, ghost hosts: seq<string>, address: string -> string,
                  turns: seq<Turn>)
    returns (t: State, ok: bool, toAdd: array<string>)
    requires Inv(s) && members == Full(hosts) && Posted(s, hosts, 0)
    ensures Inv(t) && Posted(t, hosts, 0) && fresh(toAdd) && s.shards.Keys <= t.shards.Keys
    ensures ok ==> toAdd[..] == hosts && HostsIn(t, hosts)
    ensures AllQuiet(turns) && s.index + |hosts| < U64_LIMIT ==> ok && t.index == s.index + |hosts|
    ensures AllQuiet(turns) && ok && Furnished(s, {}, address) ==> Furnished(t, members.Values, address)
  {
    t, ok := s, true;
    FullSize(hosts);
    toAdd := new string[|members|];
    var rest, step := members.Keys, 1;
    ghost var ids: set<string> := {};
    while rest != {}
      invariant toAdd.Length == |hosts| && rest <= members.Keys
      invariant Inv(t) && Posted(t, hosts, 0) && s.shards.Keys <= t.shards.Keys
      invariant forall r :: r in members && r !in rest ==> members[r] in ids
      invariant AllQuiet(turns) && Furnished(s, {}, address) ==> Furnished(t, ids, address)
      invariant Lined(toAdd[..], t, hosts, rest)
      invariant ok && (AllQuiet(turns) && s.index + |hosts| < U64_LIMIT ==> t.index + |rest| == s.index + |hosts|)
    {
      var k :| k in rest;
      ghost var was, lined := t, toAdd[..];
      t, ok := AddHost(t, hosts, members[k], address, TurnAt(turns, step), ids);
      if !ok {
        return;
      }
      toAdd[k - 1] := members[k];
      LinedNext(lined, was, t, hosts, rest, k);
      assert toAdd[..] == lined[k - 1 := members[k]];
      rest, step, ids := rest - {k}, step + 1, ids + {members[k]};
    }
    LinedAll(toAdd[..], t, hosts);
    assert members.Values <= ids;
  }

  ghost predicate HostsIn(s: State, hosts: seq<string>) {
    forall i :: 0 <= i < |hosts| ==> hosts[i] in s.hosts
  }

  /** The registry right before and right after a post. */
  datatype Post = Post(before: State, after: State)

  ghost predicate PostAt(s: State, hosts: seq<string>, posts: seq<Post>, i: nat) {
    && i < |posts| && Posts(posts[i].before, hosts, i, posts[i].after)
    && Undisturbed(if i == 0 then s else posts[i - 1].after, posts[i].before)
  }

  /** The posts of the members, one after the other, with nothing disturbing in between. */
  ghost predicate PostedInTurn(s: State, hosts: seq<string>, posts: seq<Post>, t: State) {
    && (forall i {:trigger PostAt(s, hosts, posts, i)} :: 0 <= i < |posts| ==> PostAt(s, hosts, posts, i))
    && t == if posts == [] then s else posts[|posts| - 1].after
  }

  lemma PostedInTurnNext(s: State, hosts: seq<string>, posts: seq<Post>, t: State, post: Post)
    requires PostedInTurn(s, hosts, posts, t)
    requires Undisturbed(t, post.before) && Posts(post.before, hosts, |posts|, post.after)
    ensures PostedInTurn(s, hosts, posts + [post], post.after)
  {
    var more := posts + [post];
    forall i | 0 <= i < |more| ensures PostAt(s, hosts, more, i) {
      if i < |posts| {
        assert PostAt(s, hosts, posts, i);
      }
    }
  }

  /** Every member posted so far has the status it was posted with. */
  ghost predicate StatusesKept(s: State, n: nat) {
    forall r :: 1 <= r <= n ==> r in s.replicas && s.replicas[r].status == StatusOf(r)
  }

  /** Post the replicas in the order of the members. */
  method AddReplicas(s: State, toAdd: array<string>, ghost hosts: seq<string>, turns: seq<Turn>, ghost ids: set<string>,
                     ghost address: string -> string)
    returns (t: State, ok: bool, ghost posts: seq<Post>)
    requires Inv(s) && Posted(s, hosts, 0) && toAdd[..] == hosts && HostsIn(s, hosts)
    ensures Inv(t)
    ensures ok ==> Posted(t, hosts, |hosts|) && |posts| == |hosts| && PostedInTurn(s, hosts, posts, t)
    ensures s.shards.Keys <= t.shards.Keys
    ensures AllQuiet(turns) && s.index + |hosts| < U64_LIMIT ==> ok && StatusesKept(t, |hosts|)
    ensures AllQuiet(turns) && ok && Furnished(s, ids, address) ==> Furnished(t, ids, address)
  {
    t, ok, posts := s, true, [];
    for i := 0 to toAdd.Length
      invariant ok && Adding(s, t, hosts, posts, i, AllQuiet(turns) && s.index + |hosts| < U64_LIMIT)
      invariant s.shards.Keys <= t.shards.Keys
      invariant AllQuiet(turns) && Furnished(s, ids, address) ==> Furnished(t, ids, address)
    {
      assert toAdd[i] == toAdd[..][i];
      t, ok, posts := AddReplica(s, t, hosts, posts, i, toAdd[i], TurnAt(turns, 1 + toAdd.Length + i),
                                 AllQuiet(turns) && s.index + |hosts| < U64_LIMIT, ids, address);
      if !ok {
        return;
      }
    }
  }

  /** The first `i` members have been posted. */
  ghost predicate Adding(s: State, t: State, hosts: seq<string>, posts: seq<Post>, i: nat, quiet: bool) {
    && Inv(t) && HostsIn(t, hosts) && Posted(t, hosts, i)
    && |posts| == i && PostedInTurn(s, hosts, posts, t)
    && (quiet ==> t.index == s.index + i && StatusesKept(t, i))
  }

  method AddReplica(ghost s: State, u: State, ghost hosts: seq<string>, ghost posts: seq<Post>, i: nat, host: string,
                    turn: Turn, ghost quiet: bool, ghost ids: set<string>, ghost address: string -> string)
    returns (t: State, ok: bool, ghost posts': seq<Post>)
    requires Adding(s, u, hosts, posts, i, quiet) && i < |hosts| && host == hosts[i]
    requires quiet ==> Quiet(turn) && s.index + |hosts| < U64_LIMIT
    ensures Inv(t) && (quiet ==> ok) && u.shards.Keys <= t.shards.Keys
    ensures Quiet(turn) && ok && Furnished(u, ids, address) ==> Furnished(t, ids, address)
    ensures ok ==> Adding(s, t, hosts, posts', i + 1, quiet)
  {
    ghost var before;
    t, ok, before := ProposeReplica(u, hosts, i, host, turn);
    posts' := posts;
    if ok {
      PostFurnishes(before, hosts, i, t, ids, address);
      PostedInTurnNext(s, hosts, posts, u, Post(before, t));
      posts' := posts + [Post(before, t)];
      if quiet {
        StatusesNext(u, hosts, i, t);
      }
    }
  }

  lemma StatusesNext(s: State, hosts: seq<string>, i: nat, t: State)
    requires StatusesKept(s, i) && Posts(s, hosts, i, t)
    ensures StatusesKept(t, i + 1)
  {
  }

  /** From a registry that has given out no replica id: if all goes through, member `i` is replica
      `i`, and the first three are posted to bootstrap the prime shard while the others join it. The prime
      shard is stored, unless the registry did not take it when it was put, and the hosts have their
      addresses. */
  method Initialize(s: State, members: map<nat, string>, ghost hosts: seq<string>, address: string -> string,
                    turns: seq<Turn>)
    returns (t: State, ok: bool, ghost put: State, ghost start: State, ghost posts: seq<Post>)
    requires Inv(s) && s.replicaCounter == 0 && members == Full(hosts)
    ensures Inv(t)
    ensures ok ==> Posted(t, hosts, |hosts|) && |posts| == |hosts| && PostedInTurn(start, hosts, posts, t)
    ensures ok ==> forall r :: r in members ==>
              r in t.replicas && t.replicas[r].shardId == 0 && t.replicas[r].hostId == members[r]
    ensures Undisturbed(s, put) && (AllQuiet(turns) ==> put == s)
    ensures ok && TakesPrime(put) ==> 0 in t.shards
    ensures AllQuiet(turns) && ok && TakesPrime(s) ==> Furnished(t, members.Values, address)
    ensures AllQuiet(turns) && !Panics(s, ShardPut(PRIME_SHARD)) && s.index + 2 * |hosts| + 1 < U64_LIMIT ==>
              ok && StatusesKept(t, |hosts|)
  {
    start, posts := s, [];
    t, ok, put := ProposeRow(s, ShardPut(PRIME_SHARD), TurnAt(turns, 0));
    PostedKept(s, t, hosts, 0);
    if !ok {
      return;
    }
    if TakesPrime(put) {
      PrimePutStores(put, t, address);
    }
    var toAdd;
    t, ok, toAdd := AddHosts(t, members, hosts, address, turns);
    if !ok {
      return;
    }
    start := t;
    t, ok, posts := AddReplicas(t, toAdd, hosts, turns, members.Values, address);
  }
}
