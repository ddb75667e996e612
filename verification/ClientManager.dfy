/**
 The client manager: per shard, the leader and the hosts of its members and replicas, nearest first.
 A tick looks only at shards stamped after the last one it saw. What it remembers must still agree
 with the registry for every shard that it does not look at, as far as the hosts answered its pings.
 */
module ClientManager {
  import opened Chains
  import opened Numerals
  import opened Registry
  import opened RegistryRuns
  import opened Watermarks
  import opened Iteration

  datatype Client = Client(ping: int, host: string)

  datatype Leader = Leader(host: string, replica: nat, term: nat)

  /******* Lists by ping *******/

  ghost predicate Ascending(a: seq<Client>) {
    forall i, j :: 0 <= i < j < |a| ==> a[i].ping <= a[j].ping
  }

  ghost predicate Strict(a: seq<Client>) {
    forall i, j :: 0 <= i < j < |a| ==> a[i].ping < a[j].ping
  }

  lemma InsertAscending(b: seq<Client>, j: nat, x: Client)
    requires Ascending(b) && j <= |b|
    requires (forall i :: 0 <= i < j ==> b[i].ping <= x.ping) && (forall i :: j <= i < |b| ==> x.ping <= b[i].ping)
    ensures Ascending(b[..j] + [x] + b[j..])
  {
    var c := b[..j] + [x] + b[j..];
    forall i | 0 <= i < |c| ensures c[i] == if i < j then b[i] else if i == j then x else b[i - 1] {
    }
  }

  lemma InsertMultiset(b: seq<Client>, j: nat, x: Client)
    requires j <= |b|
    ensures multiset(b[..j] + [x] + b[j..]) == multiset(b) + multiset{x}
  {
    assert b == b[..j] + b[j..];
  }

  /** How many clients, from the front, are no farther than the ping. */
  method Place(b: seq<Client>, ping: int) returns (j: nat)
    requires Ascending(b)
    ensures j <= |b|
    ensures (forall i :: 0 <= i < j ==> b[i].ping <= ping) && (forall i :: j <= i < |b| ==> ping <= b[i].ping)
  {
    j := |b|;
    while j > 0 && b[j - 1].ping > ping
      invariant j <= |b|
      invariant forall i :: j <= i < |b| ==> ping <= b[i].ping
    {
      j := j - 1;
    }
  }

  method Insert(b: seq<Client>, x: Client) returns (c: seq<Client>)
    requires Ascending(b)
    ensures Ascending(c) && multiset(c) == multiset(b) + multiset{x}
  {
    var j := Place(b, x.ping);
    InsertAscending(b, j, x);
    InsertMultiset(b, j, x);
    c := b[..j] + [x] + b[j..];
  }

  method Sorted(a: seq<Client>) returns (b: seq<Client>)
    ensures Ascending(b)
    ensures multiset(b) == multiset(a)
  {
    b := [];
    for i := 0 to |a|
      invariant Ascending(b) && multiset(b) == multiset(a[..i])
    {
      assert a[..i + 1] == a[..i] + [a[i]];
      b := Insert(b, a[i]);
    }
    assert a[..|a|] == a;
  }

  /** Where an ordered map keeps the key, or its length. */
  function Slot(m: seq<Client>, ping: int): (i: nat)
    ensures i <= |m| && (i < |m| ==> m[i].ping == ping)
    ensures forall x :: 0 <= x < i ==> m[x].ping != ping
  {
    if m == [] || m[0].ping == ping then 0
    else
      var i := Slot(m[1..], ping);
      assert forall x :: 1 <= x < i + 1 ==> m[x] == m[1..][x - 1];
      i + 1
  }

  /** Setting a key that is present replaces its value in place. */
  function Put(m: seq<Client>, x: Client): seq<Client> {
    var i := Slot(m, x.ping);
    if i < |m| then m[i := x] else m + [x]
  }

  /** Some client of the list has this ping. */
  ghost predicate Timed(m: seq<Client>, ping: int) {
    exists i :: 0 <= i < |m| && m[i].ping == ping
  }

  lemma PutTimed(m: seq<Client>, x: Client, ping: int)
    ensures Timed(Put(m, x), ping) <==> Timed(m, ping) || ping == x.ping
  {
    var n, i := Put(m, x), Slot(m, x.ping);
    assert n[i] == x;
    if Timed(m, ping) {
      var j :| 0 <= j < |m| && m[j].ping == ping;
      assert n[j].ping == ping;
    }
  }

  lemma PutStrict(m: seq<Client>, x: Client)
    requires Strict(m) && forall y :: y in m ==> y.ping <= x.ping
    ensures Strict(Put(m, x))
    ensures forall y :: y in Put(m, x) ==> y.ping <= x.ping && (y in m || y == x)
  {
    forall i | 0 <= i < |m| ensures m[i].ping <= x.ping {
      assert m[i] in m;
    }
  }

  /** The ordered map that a sorted list makes. Clients with equal pings collapse into one. */
  method Ordered(a: seq<Client>) returns (m: seq<Client>)
    requires Ascending(a)
    ensures Strict(m)
    ensures forall x :: x in m ==> x in a
    ensures forall x :: x in a ==> Timed(m, x.ping)
  {
    m := [];
    for i := 0 to |a|
      invariant OrderedUpTo(a, i, m)
    {
      OrderedNext(a, i, m);
      m := Put(m, a[i]);
    }
    assert a[..|a|] == a;
  }

  ghost predicate OrderedUpTo(a: seq<Client>, i: nat, m: seq<Client>) {
    && i <= |a| && Strict(m)
    && (forall x :: x in m ==> x in a[..i])
    && (forall j :: 0 <= j < i ==> Timed(m, a[j].ping))
  }

  lemma OrderedNext(a: seq<Client>, i: nat, m: seq<Client>)
    requires Ascending(a) && OrderedUpTo(a, i, m) && i < |a|
    ensures OrderedUpTo(a, i + 1, Put(m, a[i]))
  {
    forall x | x in m ensures x.ping <= a[i].ping {
      var j :| 0 <= j < i && a[..i][j] == x;
      assert a[j] == x;
    }
    PutStrict(m, a[i]);
    forall j | 0 <= j <= i ensures Timed(Put(m, a[i]), a[j].ping) {
      PutTimed(m, a[i], a[j].ping);
    }
    assert a[..i + 1] == a[..i] + [a[i]];
  }

  /******* One shard *******/

  /** Members vote; replicas include those that do not. */
  predicate Counts(s: State, r: nat, voting: bool)
    requires r in s.replicas
  {
    voting ==> !s.replicas[r].isNonVoting
  }

  /** `got` holds the ping of every replica whose host answered. */
  ghost predicate Answered(s: State, k: nat, got: map<nat, int>) {
    forall r :: r in got ==> r in OfShard(s.replicas, k)
  }

  function ClientOf(s: State, got: map<nat, int>, r: nat): Client
    requires r in got && r in s.replicas
  {
    Client(got[r], s.replicas[r].hostId)
  }

  ghost predicate From(x: Client, s: State, k: nat, got: map<nat, int>, voting: bool)
    requires Answered(s, k, got)
  {
    exists r :: r in got && Counts(s, r, voting) && x == ClientOf(s, got, r)
  }

  /** The clients of all answering replicas, and no others. */
  ghost predicate Lists(list: seq<Client>, s: State, k: nat, got: map<nat, int>, voting: bool)
    requires Answered(s, k, got)
  {
    && (forall r :: r in got && Counts(s, r, voting) ==> ClientOf(s, got, r) in list)
    && (forall x :: x in list ==> From(x, s, k, got, voting))
  }

  lemma ListsMore(list: seq<Client>, list': seq<Client>, s: State, k: nat, got: map<nat, int>, r: nat, ping: int,
                  voting: bool)
    requires r in OfShard(s.replicas, k) && r !in got && Answered(s, k, got) && Lists(list, s, k, got, voting)
    requires list' == if Counts(s, r, voting) then list + [Client(ping, s.replicas[r].hostId)] else list
    ensures Answered(s, k, got[r := ping]) && Lists(list', s, k, got[r := ping], voting)
  {
    var got' := got[r := ping];
    forall x | x in list ensures From(x, s, k, got', voting) {
      var y :| y in got && Counts(s, y, voting) && x == ClientOf(s, got, y);
      assert y in got' && x == ClientOf(s, got', y);
    }
    if Counts(s, r, voting) {
      assert ClientOf(s, got', r) == Client(ping, s.replicas[r].hostId);
    }
  }

  ghost predicate Gathered(s: State, k: nat, replicas: seq<Client>, members: seq<Client>, leader: Option<string>,
                           got: map<nat, int>)
    requires k in s.shards
  {
    && Answered(s, k, got)
    && Lists(replicas, s, k, got, false)
    && Lists(members, s, k, got, true)
    && leader == if s.shards[k].leader in got then Some(s.replicas[s.shards[k].leader].hostId) else None
  }

  lemma GatheredMore(s: State, k: nat, replicas: seq<Client>, members: seq<Client>, leader: Option<string>,
                     got: map<nat, int>, r: nat, ping: int)
    requires k in s.shards && Gathered(s, k, replicas, members, leader, got)
    requires r in OfShard(s.replicas, k) && r !in got
    ensures var client := Client(ping, s.replicas[r].hostId);
            Gathered(s, k, replicas + [client], if s.replicas[r].isNonVoting then members else members + [client],
                     if s.shards[k].leader == r then Some(client.host) else leader, got[r := ping])
  {
    var client := Client(ping, s.replicas[r].hostId);
    ListsMore(replicas, replicas + [client], s, k, got, r, ping, false);
    ListsMore(members, if s.replicas[r].isNonVoting then members else members + [client], s, k, got, r, ping, true);
  }

  /******* Pings *******/

  /** Some call to the host was answered in this time. The calls of a tick are numbered, `ping` gives
      their outcomes and `asked` their hosts. */
  ghost predicate Replied(asked: seq<string>, ping: nat -> Option<int>, host: string, time: int) {
    exists n :: 0 <= n < |asked| && asked[n] == host && ping(n) == Some(time)
  }

  /** Some call to the host from number `from` on was not answered. */
  ghost predicate Silent(asked: seq<string>, ping: nat -> Option<int>, from: nat, host: string) {
    exists n :: from <= n < |asked| && asked[n] == host && ping(n).None?
  }

  /** No host is asked again once it has answered. */
  ghost predicate Polite(asked: seq<string>, ping: nat -> Option<int>) {
    forall i, j :: 0 <= i < j < |asked| && asked[i] == asked[j] ==> ping(i).None?
  }

  /** `known` holds the hosts that answered, with their times. */
  ghost predicate Noted(asked: seq<string>, ping: nat -> Option<int>, known: map<string, int>) {
    && Polite(asked, ping)
    && (forall h :: h in known ==> Replied(asked, ping, h, known[h]))
    && (forall i :: 0 <= i < |asked| && ping(i).Some? ==> asked[i] in known)
  }

  /** A replica is listed with the time in which its host answered, or a call to its host failed. */
  ghost predicate Heard(s: State, asked: seq<string>, ping: nat -> Option<int>, from: nat, got: map<nat, int>, r: nat)
    requires r in s.replicas
  {
    if r in got then Replied(asked, ping, s.replicas[r].hostId, got[r])
    else Silent(asked, ping, from, s.replicas[r].hostId)
  }

  lemma HeardMore(s: State, asked: seq<string>, asked': seq<string>, ping: nat -> Option<int>, from: nat,
                  got: map<nat, int>, r: nat)
    requires r in s.replicas && asked <= asked' && Heard(s, asked, ping, from, got, r)
    ensures Heard(s, asked', ping, from, got, r) && Heard(s, asked', ping, 0, got, r)
  {
    var host := s.replicas[r].hostId;
    if r in got {
      var n :| 0 <= n < |asked| && asked[n] == host && ping(n) == Some(got[r]);
      assert asked'[n] == host;
    } else {
      var n :| from <= n < |asked| && asked[n] == host && ping(n).None?;
      assert asked'[n] == host;
    }
  }

  lemma RepliedMore(asked: seq<string>, asked': seq<string>, ping: nat -> Option<int>, host: string, time: int)
    requires asked <= asked' && Replied(asked, ping, host, time)
    ensures Replied(asked', ping, host, time)
  {
    var n :| 0 <= n < |asked| && asked[n] == host && ping(n) == Some(time);
    assert asked'[n] == host;
  }

  /** Ask a host, unless its time is known. */
  method Ask(host: string, known: map<string, int>, ping: nat -> Option<int>, calls: nat, ghost asked: seq<string>)
    returns (known': map<string, int>, calls': nat, ghost asked': seq<string>)
    requires Noted(asked, ping, known) && calls == |asked|
    ensures Noted(asked', ping, known') && calls' == |asked'| && asked <= asked' && |asked'| <= |asked| + 1
    ensures host in known ==> asked' == asked
    ensures host in known' || Silent(asked', ping, |asked|, host)
    ensures known.Keys <= known'.Keys
  {
    known', calls', asked' := known, calls, asked;
    if host !in known {
      var answer := ping(calls);
      calls', asked' := calls + 1, asked + [host];
      assert asked'[calls] == host;
      if answer.Some? {
        known' := known[host := answer.value];
      }
      forall h | h in known' ensures Replied(asked', ping, h, known'[h]) {
        if h in known && h != host {
          RepliedMore(asked, asked', ping, h, known[h]);
        }
      }
    }
  }

  /** Ping the hosts of the shard's replicas, each host at most once per tick if it answers. */
  method Gather(s: State, k: nat, known: map<string, int>, ping: nat -> Option<int>, calls: nat,
                ghost asked: seq<string>)
    returns (replicas: seq<Client>, members: seq<Client>, leader: Option<string>, known': map<string, int>,
             calls': nat, ghost asked': seq<string>, ghost got: map<nat, int>)
    requires k in s.shards && Noted(asked, ping, known) && calls == |asked|
    ensures Gathered(s, k, replicas, members, leader, got)
    ensures Noted(asked', ping, known') && calls' == |asked'| && asked <= asked'
    ensures |asked'| <= |asked| + |OfShard(s.replicas, k)|
    ensures forall r {:trigger Heard(s, asked', ping, |asked|, got, r)} ::
              r in OfShard(s.replicas, k) ==> Heard(s, asked', ping, |asked|, got, r)
    ensures forall r :: r in OfShard(s.replicas, k) && s.replicas[r].hostId in known ==> r in got
  {
    replicas, members, leader, known', calls', got := [], [], None, known, calls, map[];
    asked' := asked;
    var rest := OfShard(s.replicas, k);
    while rest != {}
      invariant rest <= OfShard(s.replicas, k) && got.Keys !! rest
      invariant Gathered(s, k, replicas, members, leader, got)
      invariant Noted(asked', ping, known') && calls' == |asked'| && asked <= asked' && known.Keys <= known'.Keys
      invariant |asked'| + |rest| <= |asked| + |OfShard(s.replicas, k)|
      invariant forall r {:trigger Heard(s, asked', ping, |asked|, got, r)} ::
                  r in OfShard(s.replicas, k) && r !in rest ==> Heard(s, asked', ping, |asked|, got, r)
      invariant forall r :: r in OfShard(s.replicas, k) && r !in rest && s.replicas[r].hostId in known ==> r in got
    {
      var r :| r in rest;
      assert |rest - {r}| == |rest| - 1;
      rest := rest - {r};
      var host := s.replicas[r].hostId;
      ghost var was, before := asked', got;
      known', calls', asked' := Ask(host, known', ping, calls', asked');
      forall x | x in OfShard(s.replicas, k) && x !in rest && x != r ensures Heard(s, asked', ping, |asked|, got, x) {
        HeardMore(s, was, asked', ping, |asked|, got, x);
      }
      if host in known' {
        GatheredMore(s, k, replicas, members, leader, got, r, known'[host]);
        got := got[r := known'[host]];
        replicas := replicas + [Client(known'[host], host)];
        if !s.replicas[r].isNonVoting {
          members := members + [Client(known'[host], host)];
        }
        if s.shards[k].leader == r {
          leader := Some(host);
        }
      }
      forall x | x in OfShard(s.replicas, k) && x !in rest ensures Heard(s, asked', ping, |asked|, got, x) {
        if x != r {
          assert Heard(s, asked', ping, |asked|, before, x);
        } else {
          HeardNow(s, was, asked', ping, |asked|, got, r);
        }
      }
    }
  }

  /** The call just made, or one made before, accounts for the replica. */
  lemma HeardNow(s: State, was: seq<string>, asked: seq<string>, ping: nat -> Option<int>, from: nat, got: map<nat, int>,
                 r: nat)
    requires r in s.replicas && from <= |was|
    requires if r in got then Replied(asked, ping, s.replicas[r].hostId, got[r])
             else Silent(asked, ping, |was|, s.replicas[r].hostId)
    ensures Heard(s, asked, ping, from, got, r)
  {
  }

  /** A list as it is cached: nearest first, one client per ping, only of answering replicas, and
      every answering replica accounted for by its ping. */
  ghost predicate Shows(list: seq<Client>, s: State, k: nat, got: map<nat, int>, voting: bool)
    requires Answered(s, k, got)
  {
    && Strict(list)
    && (forall x :: x in list ==> From(x, s, k, got, voting))
    && (forall r :: r in got && Counts(s, r, voting) ==> Timed(list, got[r]))
  }

  method Arrange(list: seq<Client>, ghost s: State, ghost k: nat, ghost got: map<nat, int>, ghost voting: bool)
    returns (m: seq<Client>)
    requires Answered(s, k, got) && Lists(list, s, k, got, voting)
    ensures Shows(m, s, k, got, voting)
  {
    var a := Sorted(list);
    assert forall x :: x in a <==> x in multiset(a);
    assert forall x :: x in list <==> x in multiset(list);
    m := Ordered(a);
    forall r | r in got && Counts(s, r, voting) ensures Timed(m, got[r]) {
      assert ClientOf(s, got, r) in a;
    }
  }

  /******* What is remembered *******/

  datatype Cached = Cached(leader: Option<Leader>, members: seq<Client>, replicas: seq<Client>)

  /** The leader, if it is one of the answering replicas. */
  function LeaderOf(s: State, k: nat, got: map<nat, int>): Option<Leader>
    requires k in s.shards
  {
    var id := s.shards[k].leader;
    if id in got && id in s.replicas then Some(Leader(s.replicas[id].hostId, id, s.shards[k].term)) else None
  }

  /** The entry agrees with the registry as far as hosts answered. */
  ghost predicate Coherent(s: State, k: nat, c: Cached, got: map<nat, int>) {
    && k in s.shards && Answered(s, k, got)
    && Shows(c.members, s, k, got, true)
    && Shows(c.replicas, s, k, got, false)
    && c.leader == LeaderOf(s, k, got)
  }

  lemma ShowsKept(s: State, t: State, k: nat, list: seq<Client>, got: map<nat, int>, voting: bool)
    requires Answered(s, k, got) && Shows(list, s, k, got, voting) && RowsOfShard(t, k) == RowsOfShard(s, k)
    ensures Answered(t, k, got) && Shows(list, t, k, got, voting)
  {
    forall r | r in got ensures r in OfShard(t.replicas, k) && t.replicas[r] == s.replicas[r] {
      assert r in RowsOfShard(s, k);
      assert r in RowsOfShard(t, k) && RowsOfShard(t, k)[r] == s.replicas[r];
    }
    forall x | x in list ensures From(x, t, k, got, voting) {
      var r :| r in got && Counts(s, r, voting) && x == ClientOf(s, got, r);
      assert x == ClientOf(t, got, r);
    }
  }

  /** An entry stays right while its shard is stamped at or below the state it was made from. */
  lemma CoherentKept(s: State, t: State, k: nat, c: Cached, got: map<nat, int>)
    requires Coherent(s, k, c, got) && QuietShards(s, t) && k in t.shards && t.shards[k].updated <= s.index
    ensures Coherent(t, k, c, got)
  {
    assert RowsOfShard(t, k) == RowsOfShard(s, k);
    ShowsKept(s, t, k, c.members, got, true);
    ShowsKept(s, t, k, c.replicas, got, false);
    var id := s.shards[k].leader;
    if id in got {
      assert id in RowsOfShard(s, k);
      assert id in RowsOfShard(t, k) && RowsOfShard(t, k)[id] == s.replicas[id];
    }
  }

  /******* Against a full recomputation *******/

  function Hosts(list: seq<Client>): set<string> {
    set i | 0 <= i < |list| :: list[i].host
  }

  function HostsIn(s: State, k: nat, voting: bool): set<string> {
    set r | r in s.replicas && s.replicas[r].shardId == k && (voting ==> !s.replicas[r].isNonVoting) ::
      s.replicas[r].hostId
  }

  /** No two hosts answered in the same time. */
  ghost predicate Distinct(s: State, k: nat, got: map<nat, int>)
    requires Answered(s, k, got)
  {
    forall r, x :: r in got && x in got && got[r] == got[x] ==> s.replicas[r].hostId == s.replicas[x].hostId
  }

  /** Some replica on the host answered. */
  ghost predicate Reached(s: State, k: nat, got: map<nat, int>, voting: bool, host: string)
    requires Answered(s, k, got)
  {
    exists r :: r in got && Counts(s, r, voting) && s.replicas[r].hostId == host
  }

  lemma ShowsReached(list: seq<Client>, s: State, k: nat, got: map<nat, int>, voting: bool, host: string)
    requires Answered(s, k, got) && Shows(list, s, k, got, voting) && Distinct(s, k, got)
    ensures host in Hosts(list) <==> Reached(s, k, got, voting, host)
  {
    if i :| 0 <= i < |list| && list[i].host == host {
      assert list[i] in list;
      assert From(list[i], s, k, got, voting);
    }
    if r :| r in got && Counts(s, r, voting) && s.replicas[r].hostId == host {
      var i :| 0 <= i < |list| && list[i].ping == got[r];
      assert list[i] in list;
      var x :| x in got && Counts(s, x, voting) && list[i] == ClientOf(s, got, x);
    }
  }

  /** With distinct pings a cached list names exactly the hosts that the registry names, if and only
      if all of them answered. */
  lemma CurrentExactly(list: seq<Client>, s: State, k: nat, got: map<nat, int>, voting: bool)
    requires Answered(s, k, got) && Shows(list, s, k, got, voting) && Distinct(s, k, got)
    ensures Hosts(list) <= HostsIn(s, k, voting)
    ensures Hosts(list) == HostsIn(s, k, voting)
            <==> forall h :: h in HostsIn(s, k, voting) ==> Reached(s, k, got, voting, h)
    ensures got.Keys == OfShard(s.replicas, k) ==> Hosts(list) == HostsIn(s, k, voting)
  {
    forall h ensures h in Hosts(list) <==> Reached(s, k, got, voting, h) {
      ShowsReached(list, s, k, got, voting, h);
    }
    forall h | Reached(s, k, got, voting, h) ensures h in HostsIn(s, k, voting) {
      var r :| r in got && Counts(s, r, voting) && s.replicas[r].hostId == h;
      assert r in s.replicas && s.replicas[r].shardId == k;
    }
    if got.Keys == OfShard(s.replicas, k) {
      forall h | h in HostsIn(s, k, voting) ensures Reached(s, k, got, voting, h) {
        var r :| r in s.replicas && s.replicas[r].shardId == k && Counts(s, r, voting) && s.replicas[r].hostId == h;
        assert r in got;
      }
    }
  }

  /******* The tables *******/

  datatype Cache = Cache(leaders: map<nat, Leader>, members: map<nat, seq<Client>>, replicas: map<nat, seq<Client>>) {
    predicate Knows(k: nat) {
      k in members && k in replicas
    }

    function Of(k: nat): Cached
      requires Knows(k)
    {
      Cached(if k in leaders then Some(leaders[k]) else None, members[k], replicas[k])
    }
  }

  ghost predicate Holds(s: State, k: nat, cache: Cache, got: map<nat, map<nat, int>>) {
    cache.Knows(k) && k in got && Coherent(s, k, cache.Of(k), got[k])
  }

  /** Every replica of the shard answered when its entry was made. */
  ghost predicate Whole(s: State, k: nat, got: map<nat, map<nat, int>>) {
    k in got && got[k].Keys == OfShard(s.replicas, k)
  }

  ghost predicate HoldsAll(s: State, keys: set<nat>, cache: Cache, got: map<nat, map<nat, int>>) {
    forall k {:trigger Holds(s, k, cache, got)} :: k in keys ==> Holds(s, k, cache, got)
  }

  ghost predicate WholeAll(s: State, keys: set<nat>, got: map<nat, map<nat, int>>) {
    forall k {:trigger Whole(s, k, got)} :: k in keys ==> Whole(s, k, got)
  }

  /** If every replica answered and no two hosts in the same time, the entry is what a full
      recomputation from the registry gives. */
  lemma EntryCurrent(s: State, k: nat, cache: Cache, got: map<nat, map<nat, int>>)
    requires Holds(s, k, cache, got) && Whole(s, k, got) && Distinct(s, k, got[k])
    ensures Hosts(cache.members[k]) == HostsIn(s, k, true)
    ensures Hosts(cache.replicas[k]) == HostsIn(s, k, false)
    ensures var id := s.shards[k].leader;
            if id in s.replicas && s.replicas[id].shardId == k
            then k in cache.leaders && cache.leaders[k] == Leader(s.replicas[id].hostId, id, s.shards[k].term)
            else k !in cache.leaders
  {
    CurrentExactly(cache.members[k], s, k, got[k], true);
    CurrentExactly(cache.replicas[k], s, k, got[k], false);
  }

  /******* A tick *******/

  /** What the manager remembers. `got` is what it heard when it made each entry. */
  datatype Memory = Memory(index: nat, cache: Cache, got: map<nat, map<nat, int>>)

  const BLANK := Memory(0, Cache(map[], map[], map[]), map[])

  ghost predicate Agree<V>(a: map<nat, V>, b: map<nat, V>, k: nat) {
    (k in a <==> k in b) && (k in a ==> a[k] == b[k])
  }

  ghost predicate Untouched(m: Memory, m': Memory, k: nat) {
    && Agree(m.cache.leaders, m'.cache.leaders, k) && Agree(m.cache.members, m'.cache.members, k)
    && Agree(m.cache.replicas, m'.cache.replicas, k) && Agree(m.got, m'.got, k)
  }

  /** The shard has been entered from `s`, with every replica whose host answered; each of the others
      is on a host to which a call failed. */
  ghost predicate Entered(s: State, k: nat, m: Memory, asked: seq<string>, ping: nat -> Option<int>) {
    && Holds(s, k, m.cache, m.got)
    && forall r {:trigger Heard(s, asked, ping, 0, m.got[k], r)} ::
         r in OfShard(s.replicas, k) ==> Heard(s, asked, ping, 0, m.got[k], r)
  }

  predicate Newer(s: State, k: nat, index: nat) {
    k in s.shards && s.shards[k].updated > index
  }

  /** The last stamp, or the index if there is none above it. */
  ghost predicate Last(s: State, index: nat, last: nat) {
    && index <= last
    && (forall k :: k in s.shards ==> s.shards[k].updated <= last)
    && (last == index || exists k :: k in s.shards && s.shards[k].updated == last)
  }

  /** One tick over `s`: all newer shards and no others are entered, the index moves to the last stamp,
      whatever the pings do, and no host is asked again once it has answered. */
  ghost predicate Ticks(s: State, m: Memory, asked: seq<string>, ping: nat -> Option<int>, m': Memory) {
    && Last(s, m.index, m'.index)
    && (forall k {:trigger Entered(s, k, m', asked, ping)} :: Newer(s, k, m.index) ==> Entered(s, k, m', asked, ping))
    && (forall k {:trigger Untouched(m, m', k)} :: !Newer(s, k, m.index) ==> Untouched(m, m', k))
    && Polite(asked, ping) && |asked| <= |s.replicas|
  }

  lemma EnteredMore(s: State, k: nat, m: Memory, m': Memory, asked: seq<string>, asked': seq<string>,
                    ping: nat -> Option<int>)
    requires Entered(s, k, m, asked, ping) && asked <= asked' && Untouched(m, m', k)
    ensures Entered(s, k, m', asked', ping)
  {
    forall r | r in OfShard(s.replicas, k) ensures Heard(s, asked', ping, 0, m'.got[k], r) {
      HeardMore(s, asked, asked', ping, 0, m.got[k], r);
    }
  }

  /** Look at one shard anew. Entries of other shards stay. */
  method Refresh(s: State, k: nat, cache: Cache, known: map<string, int>, ping: nat -> Option<int>, calls: nat,
                 ghost asked: seq<string>, ghost m: Memory)
    returns (cache': Cache, known': map<string, int>, calls': nat, ghost asked': seq<string>, ghost m': Memory)
    requires k in s.shards && Noted(asked, ping, known) && calls == |asked| && m.cache == cache
    ensures m'.cache == cache' && m'.index == s.shards[k].updated
    ensures Entered(s, k, m', asked', ping)
    ensures forall j {:trigger Untouched(m, m', j)} :: j != k ==> Untouched(m, m', j)
    ensures Noted(asked', ping, known') && calls' == |asked'| && asked <= asked'
    ensures |asked'| <= |asked| + |OfShard(s.replicas, k)|
  {
    var rs, ms, leader;
    ghost var heard;
    rs, ms, leader, known', calls', asked', heard := Gather(s, k, known, ping, calls, asked);
    var newMembers := Arrange(ms, s, k, heard, true);
    var newReplicas := Arrange(rs, s, k, heard, false);
    var leaders := cache.leaders;
    if leader.Some? {
      leaders := leaders[k := Leader(leader.value, s.shards[k].leader, s.shards[k].term)];
    } else {
      leaders := leaders - {k};
    }
    cache' := Cache(leaders, cache.members[k := newMembers], cache.replicas[k := newReplicas]);
    m' := Memory(s.shards[k].updated, cache', m.got[k := heard]);
    EnteredNow(s, k, m', Cached(LeaderOf(s, k, heard), newMembers, newReplicas), heard, asked', ping, |asked|);
  }

  lemma EnteredNow(s: State, k: nat, m: Memory, entry: Cached, heard: map<nat, int>, asked: seq<string>,
                   ping: nat -> Option<int>, from: nat)
    requires m.cache.Knows(k) && m.cache.Of(k) == entry && k in m.got && m.got[k] == heard && Coherent(s, k, entry, heard)
    requires forall r {:trigger Heard(s, asked, ping, from, heard, r)} ::
               r in OfShard(s.replicas, k) ==> Heard(s, asked, ping, from, heard, r)
    ensures Entered(s, k, m, asked, ping)
  {
    forall r | r in OfShard(s.replicas, k) ensures Heard(s, asked, ping, 0, m.got[k], r) {
      HeardMore(s, asked, asked, ping, from, heard, r);
    }
  }

  /** The shards of the walk up to `i` have been entered, and `rows` are their replicas. */
  ghost predicate Walked(s: State, m: Memory, order: seq<nat>, i: nat, asked: seq<string>, ping: nat -> Option<int>,
                         m': Memory, rows: set<nat>)
  {
    && i <= |order|
    && m'.index == (if i == 0 then m.index else if order[i - 1] in s.shards then s.shards[order[i - 1]].updated else 0)
    && (forall j {:trigger order[j]} :: 0 <= j < i ==> Entered(s, order[j], m', asked, ping))
    && (forall k {:trigger Untouched(m, m', k)} :: k !in order[..i] ==> Untouched(m, m', k))
    && |asked| <= |rows| && (forall r :: r in rows ==> r in s.replicas && s.replicas[r].shardId in order[..i])
  }

  ghost predicate InOrder(s: State, index: nat, order: seq<nat>) {
    && (forall k :: k in order <==> Newer(s, k, index))
    && (forall i, j :: 0 <= i < j < |order| ==>
          && order[i] != order[j] && order[i] in s.shards && order[j] in s.shards
          && s.shards[order[i]].updated <= s.shards[order[j]].updated)
  }

  lemma WalkStep(s: State, m: Memory, order: seq<nat>, i: nat, asked: seq<string>, asked': seq<string>,
                 ping: nat -> Option<int>, m': Memory, m'': Memory, rows: set<nat>)
    requires InOrder(s, m.index, order) && i < |order| && Walked(s, m, order, i, asked, ping, m', rows)
    requires asked <= asked' && |asked'| <= |asked| + |OfShard(s.replicas, order[i])|
    requires order[i] in s.shards && m''.index == s.shards[order[i]].updated && Entered(s, order[i], m'', asked', ping)
    requires forall j {:trigger Untouched(m', m'', j)} :: j != order[i] ==> Untouched(m', m'', j)
    ensures Walked(s, m, order, i + 1, asked', ping, m'', rows + OfShard(s.replicas, order[i]))
  {
    assert order[..i + 1] == order[..i] + [order[i]];
    assert order[i] !in order[..i];
    forall j | 0 <= j < i ensures Entered(s, order[j], m'', asked', ping) {
      assert Untouched(m', m'', order[j]);
      EnteredMore(s, order[j], m', m'', asked, asked', ping);
    }
    forall k | k !in order[..i + 1] ensures Untouched(m, m'', k) {
      assert Untouched(m, m', k) && Untouched(m', m'', k);
    }
    var added := OfShard(s.replicas, order[i]);
    assert rows !! added;
    assert |rows + added| == |rows| + |added|;
  }

  method Walk(s: State, index: nat) returns (order: seq<nat>)
    ensures InOrder(s, index, order)
  {
    order := UpdatedAfter(s, index);
    assert forall i :: 0 <= i < |order| ==> order[i] in order;
  }

  lemma WalkStart(s: State, m: Memory, order: seq<nat>, ping: nat -> Option<int>)
    ensures Walked(s, m, order, 0, [], ping, m, {}) && Noted([], ping, map[])
  {
  }

  lemma WalkEnd(s: State, m: Memory, order: seq<nat>, asked: seq<string>, ping: nat -> Option<int>, m': Memory,
                rows: set<nat>)
    requires InOrder(s, m.index, order) && Walked(s, m, order, |order|, asked, ping, m', rows) && Polite(asked, ping)
    ensures Ticks(s, m, asked, ping, m')
  {
    assert order[..|order|] == order;
    assert rows <= s.replicas.Keys;
    SubsetSize(rows, s.replicas.Keys);
    assert |s.replicas.Keys| == |s.replicas|;
    forall k | Newer(s, k, m.index) ensures Entered(s, k, m', asked, ping) {
      assert k in order;
      var j :| 0 <= j < |order| && order[j] == k;
    }
    WalkLast(s, m, order, m');
  }

  lemma WalkLast(s: State, m: Memory, order: seq<nat>, m': Memory)
    requires InOrder(s, m.index, order)
    requires m'.index == if order == [] then m.index
                         else if order[|order| - 1] in s.shards then s.shards[order[|order| - 1]].updated
                         else 0
    ensures Last(s, m.index, m'.index)
  {
    if order != [] {
      assert Newer(s, order[|order| - 1], m.index);
    }
    forall k | k in s.shards ensures s.shards[k].updated <= m'.index {
      if Newer(s, k, m.index) {
        assert k in order;
      }
    }
  }

  /** Visit the next shard of the walk. */
  method RefreshNext(s: State, cache: Cache, known: map<string, int>, ping: nat -> Option<int>, calls: nat,
                     order: seq<nat>, i: nat, ghost asked: seq<string>, ghost m: Memory, ghost before: Memory, ghost rows: set<nat>)
    returns (index': nat, cache': Cache, known': map<string, int>, calls': nat, ghost asked': seq<string>,
             ghost m': Memory, ghost rows': set<nat>)
    requires InOrder(s, m.index, order) && i < |order| && Walked(s, m, order, i, asked, ping, before, rows)
    requires Noted(asked, ping, known) && calls == |asked| && before.cache == cache
    ensures m'.index == index' && m'.cache == cache' && calls' == |asked'|
    ensures Noted(asked', ping, known')
    ensures Walked(s, m, order, i + 1, asked', ping, m', rows')
  {
    var k := order[i];
    assert Newer(s, k, m.index);
    index' := s.shards[k].updated;
    cache', known', calls', asked', m' := Refresh(s, k, cache, known, ping, calls, asked, before);
    WalkStep(s, m, order, i, asked, asked', ping, before, m', rows);
    rows' := rows + OfShard(s.replicas, k);
  }

  /** Visit every shard stamped after the index. A ping that fails does not hold the index back. */
  method RefreshAll(s: State, index: nat, cache: Cache, ping: nat -> Option<int>, ghost m: Memory)
    returns (index': nat, cache': Cache, ghost asked: seq<string>, ghost m': Memory)
    requires m.index == index && m.cache == cache
    ensures m'.index == index' && m'.cache == cache' && Ticks(s, m, asked, ping, m')
  {
    var order := Walk(s, index);
    var known: map<string, int>, calls := map[], 0;
    index', cache', m', asked := index, cache, m, [];
    ghost var rows: set<nat> := {};
    WalkStart(s, m, order, ping);
    for i := 0 to |order|
      invariant m'.index == index' && m'.cache == cache' && calls == |asked|
      invariant Noted(asked, ping, known)
      invariant Walked(s, m, order, i, asked, ping, m', rows)
    {
      index', cache', known, calls, asked, m', rows :=
        RefreshNext(s, cache', known, ping, calls, order, i, asked, m, m', rows);
    }
    WalkEnd(s, m, order, asked, ping, m', rows);
  }

  /******* What a tick keeps *******/

  /** The shards that the watermark covers. */
  ghost function Seen(s: State, index: nat): set<nat> {
    set k | k in s.shards && s.shards[k].updated <= index
  }

  /** Every shard that the watermark covers is cached as the registry has it. */
  ghost predicate Valid(s: State, m: Memory) {
    m.index <= s.index && HoldsAll(s, Seen(s, m.index), m.cache, m.got)
  }

  /** And every replica of it answered. */
  ghost predicate Full(s: State, m: Memory) {
    WholeAll(s, Seen(s, m.index), m.got)
  }

  ghost predicate AllAnswer(ping: nat -> Option<int>) {
    forall n :: ping(n).Some?
  }

  /** After a tick the watermark covers every shard. */
  lemma TickKeeps(s: State, m: Memory, asked: seq<string>, ping: nat -> Option<int>, m': Memory)
    requires Inv(s) && Valid(s, m) && Ticks(s, m, asked, ping, m')
    ensures Valid(s, m') && Seen(s, m'.index) == s.shards.Keys
    ensures AllAnswer(ping) && Full(s, m) ==> Full(s, m')
  {
    forall k | k in s.shards ensures Holds(s, k, m'.cache, m'.got) {
      if Newer(s, k, m.index) {
        assert Entered(s, k, m', asked, ping);
      } else {
        assert Untouched(m, m', k) && Holds(s, k, m.cache, m.got);
      }
    }
    if AllAnswer(ping) && Full(s, m) {
      forall k | k in s.shards ensures Whole(s, k, m'.got) {
        if Newer(s, k, m.index) {
          EnteredWhole(s, k, m', asked, ping);
        } else {
          assert Untouched(m, m', k) && Whole(s, k, m.got);
        }
      }
    }
  }

  lemma EnteredWhole(s: State, k: nat, m: Memory, asked: seq<string>, ping: nat -> Option<int>)
    requires Entered(s, k, m, asked, ping) && AllAnswer(ping)
    ensures Whole(s, k, m.got)
  {
    forall r | r in OfShard(s.replicas, k) ensures r in m.got[k] {
      assert Heard(s, asked, ping, 0, m.got[k], r);
    }
  }

  class Manager {
    var index: nat
    var cache: Cache
    ghost var got: map<nat, map<nat, int>>

    constructor ()
      ensures Remembers() == BLANK
    {
      index, cache, got := 0, Cache(map[], map[], map[]), map[];
    }

    ghost function Remembers(): Memory
      reads this
    {
      Memory(index, cache, got)
    }

    /** One tick over the snapshot `s`. */
    method Tick(s: State, ping: nat -> Option<int>) returns (ghost asked: seq<string>)
      modifies this
      ensures Ticks(s, old(Remembers()), asked, ping, Remembers())
    {
      ghost var m;
      index, cache, asked, m := RefreshAll(s, index, cache, ping, Remembers());
      got := m.got;
    }
  }

  /******* Over runs of the registry *******/

  lemma HoldsLater(s: State, t: State, k: nat, cache: Cache, got: map<nat, map<nat, int>>)
    requires QuietShards(s, t) && k in t.shards && t.shards[k].updated <= s.index
    ensures Holds(s, k, cache, got) ==> Holds(t, k, cache, got)
    ensures Whole(s, k, got) ==> Whole(t, k, got)
  {
    if Holds(s, k, cache, got) {
      CoherentKept(s, t, k, cache.Of(k), got[k]);
    }
    assert RowsOfShard(t, k).Keys == OfShard(t.replicas, k);
    assert RowsOfShard(s, k).Keys == OfShard(s.replicas, k);
  }

  lemma ValidLater(m: Memory, s: State, t: State)
    requires Valid(s, m) && QuietShards(s, t) && s.index <= t.index
    ensures Valid(t, m)
    ensures Full(s, m) ==> Full(t, m)
  {
    forall k | k in Seen(t, m.index)
      ensures Holds(t, k, m.cache, m.got) && (Full(s, m) ==> Whole(t, k, m.got))
    {
      assert k in Seen(s, m.index);
      HoldsLater(s, t, k, m.cache, m.got);
      assert Holds(s, k, m.cache, m.got);
      if Full(s, m) {
        assert Whole(s, k, m.got);
      }
    }
  }

  /** Runs in which no replica changes its shard and restarts lose nothing. */
  ghost predicate Steady(es: seq<Event>, ss: seq<State>) {
    IsRun(es, ss) && NoShardMoves(es, ss, 0, |es|) && RestartsKeep(es, ss, 0, |es|)
  }

  lemma Elapsed(es: seq<Event>, ss: seq<State>, p: nat, q: nat)
    requires Steady(es, ss) && p <= q <= |es|
    ensures QuietShards(ss[p], ss[q]) && ss[p].index <= ss[q].index && Inv(ss[q])
  {
    NoMissedChange(es, ss, p, q);
    CountersMonotone(es, ss, p, q);
    Reachable(es, ss, q);
  }

  /** The registry takes its next step; the manager ticks; or the process starts anew. */
  datatype Act = Advance | Look(asked: seq<string>, ping: nat -> Option<int>) | Reset

  /** The manager's memory when the registry is at position `p` of its run. */
  datatype Watch = Watch(p: nat, memory: Memory)

  ghost predicate Step(ss: seq<State>, a: Watch, act: Act, b: Watch) {
    match act
    case Advance => a.p + 1 < |ss| && b == a.(p := a.p + 1)
    case Look(asked, ping) => a.p < |ss| && Ticks(ss[a.p], a.memory, asked, ping, b.memory) && b.p == a.p
    case Reset => b == a.(memory := BLANK)
  }

  ghost function Steps(ss: seq<State>): (Watch, Act, Watch) -> bool {
    (a, act, b) => Step(ss, a, act, b)
  }

  ghost predicate IsWatch(ss: seq<State>, acts: seq<Act>, ws: seq<Watch>) {
    Chain(ws, acts, Steps(ss)) && ws[0] == Watch(0, BLANK)
  }

  ghost predicate Current(es: seq<Event>, ss: seq<State>, w: Watch, full: bool) {
    w.p < |ss| && Valid(ss[w.p], w.memory) && (full ==> Full(ss[w.p], w.memory))
  }

  /** Nothing is stamped at zero. */
  lemma BlankValid(es: seq<Event>, ss: seq<State>, p: nat)
    requires Steady(es, ss) && p < |ss|
    ensures Valid(ss[p], BLANK) && Full(ss[p], BLANK)
  {
    Elapsed(es, ss, 0, p);
    assert ss[0] == EMPTY;
    assert Seen(ss[p], 0) <= ss[0].shards.Keys;
  }

  lemma CurrentStep(es: seq<Event>, ss: seq<State>, a: Watch, act: Act, b: Watch, full: bool)
    requires Steady(es, ss) && Current(es, ss, a, full) && Step(ss, a, act, b)
    requires full && act.Look? ==> AllAnswer(act.ping)
    ensures Current(es, ss, b, full)
  {
    match act
    case Advance =>
      Elapsed(es, ss, a.p, b.p);
      ValidLater(a.memory, ss[a.p], ss[b.p]);
    case Look(asked, ping) =>
      Elapsed(es, ss, a.p, a.p);
      TickKeeps(ss[a.p], a.memory, asked, ping, b.memory);
    case Reset => BlankValid(es, ss, b.p);
  }

  /** At every point of every run, with ticks and new processes anywhere: each shard that the watermark
      covers is cached as the registry has it, as far as its hosts answered; and in full, if so far
      every ping has been answered. */
  lemma AlwaysCurrent(es: seq<Event>, ss: seq<State>, acts: seq<Act>, ws: seq<Watch>, i: nat)
    requires Steady(es, ss) && IsWatch(ss, acts, ws) && i < |ws|
    ensures ws[i].p < |ss| && Valid(ss[ws[i].p], ws[i].memory)
    ensures (forall j :: 0 <= j < i && acts[j].Look? ==> AllAnswer(acts[j].ping)) ==> Full(ss[ws[i].p], ws[i].memory)
  {
    var full := forall j :: 0 <= j < i && acts[j].Look? ==> AllAnswer(acts[j].ping);
    BlankValid(es, ss, 0);
    forall m | 0 <= m < i && Current(es, ss, ws[m], full) && Step(ss, ws[m], acts[m], ws[m + 1])
      ensures Current(es, ss, ws[m + 1], full)
    {
      CurrentStep(es, ss, ws[m], acts[m], ws[m + 1], full);
    }
    ChainKeeps(ws, acts, Steps(ss), w => Current(es, ss, w, full), 0, i);
  }

  /** A tick leaves no shard of the registry out. */
  lemma LookCatchesUp(es: seq<Event>, ss: seq<State>, acts: seq<Act>, ws: seq<Watch>, i: nat)
    requires Steady(es, ss) && IsWatch(ss, acts, ws) && i < |acts| && acts[i].Look?
    ensures ws[i].p < |ss| && ws[i + 1].p == ws[i].p
    ensures Seen(ss[ws[i].p], ws[i + 1].memory.index) == ss[ws[i].p].shards.Keys
    ensures HoldsAll(ss[ws[i].p], ss[ws[i].p].shards.Keys, ws[i + 1].memory.cache, ws[i + 1].memory.got)
  {
    AlwaysCurrent(es, ss, acts, ws, i);
    assert Linked(ws, acts, Steps(ss), i);
    Elapsed(es, ss, ws[i].p, ws[i].p);
    TickKeeps(ss[ws[i].p], ws[i].memory, acts[i].asked, acts[i].ping, ws[i + 1].memory);
  }

  /** Until the next tick the shards out of date are exactly those stamped since the last one. */
  lemma OutdatedExactly(es: seq<Event>, ss: seq<State>, acts: seq<Act>, ws: seq<Watch>, i: nat, j: nat)
    requires Steady(es, ss) && IsWatch(ss, acts, ws) && i < j < |ws| && acts[i].Look?
    requires forall m :: i < m < j ==> acts[m] == Advance
    ensures ws[i].p <= ws[j].p < |ss|
    ensures Seen(ss[ws[j].p], ws[j].memory.index) == Seen(ss[ws[j].p], ss[ws[i].p].index)
  {
    LookCatchesUp(es, ss, acts, ws, i);
    Advancing(ss, acts, ws, i + 1, j);
    AlwaysCurrent(es, ss, acts, ws, i + 1);
    AlwaysCurrent(es, ss, acts, ws, j);
    Elapsed(es, ss, ws[i].p, ws[j].p);
    SeenSince(ss[ws[i].p], ss[ws[j].p], ws[j].memory.index);
  }

  lemma SeenSince(s: State, t: State, index: nat)
    requires QuietShards(s, t) && index <= s.index && Seen(s, index) == s.shards.Keys
    ensures Seen(t, index) == Seen(t, s.index)
  {
    forall k | k in Seen(t, s.index) ensures k in Seen(t, index) {
      assert k in s.shards && k in Seen(s, index);
    }
  }

  lemma {:induction false} Advancing(ss: seq<State>, acts: seq<Act>, ws: seq<Watch>, i: nat, j: nat)
    requires Chain(ws, acts, Steps(ss)) && i <= j < |ws| && forall m :: i <= m < j ==> acts[m] == Advance
    ensures ws[j].memory == ws[i].memory && ws[i].p <= ws[j].p
  {
    if i < j {
      Advancing(ss, acts, ws, i, j - 1);
      assert Linked(ws, acts, Steps(ss), j - 1);
    }
  }
}
