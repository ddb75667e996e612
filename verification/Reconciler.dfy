/**
 One reconciliation pass of the default shard controller: count the replicas of a shard per group,
 delete one that fits no group, or else fill the groups greedily, the member group first. Every walk
 over a map takes its keys in an arbitrary order, and any proposal may fail.
 */
module Reconciler {
  import opened Iteration
  import opened Registry
  import opened TagText
  import opened Placement
  import opened PlacementPolicy

  /** Whether the proposal with this number gets through; beyond the list all of them do. */
  predicate Granted(answers: seq<bool>, n: nat) {
    n < |answers| ==> answers[n]
  }

  /** Of the proposals from `a` to `b` every one got through if `ok`, and some one did not otherwise. */
  ghost predicate Asked(answers: seq<bool>, a: nat, b: nat, ok: bool) {
    a <= b && (ok <==> forall n :: a <= n < b ==> Granted(answers, n))
  }

  /** The controller's handle on the registry. `answers` says which of its proposals get through. */
  class Controls {
    const answers: seq<bool>
    var asked: nat
    var ops: seq<Op>
    var updated: bool

    constructor (answers: seq<bool>)
      ensures ops == [] && !updated && asked == 0 && this.answers == answers
    {
      ops, updated, asked, this.answers := [], false, 0, answers;
    }

    method Propose(op: Op) returns (ok: bool)
      modifies this
      ensures asked == old(asked) + 1 && ok == Granted(answers, old(asked))
      ensures ok ==> ops == old(ops) + [op] && updated
      ensures !ok ==> ops == old(ops) && updated == old(updated)
    {
      ok := asked >= |answers| || answers[asked];
      asked := asked + 1;
      if ok {
        ops, updated := ops + [op], true;
      }
    }
  }

  type Pos = n: int | n > 0 witness 1

  /** Per group, how many replicas or hosts have each vary value. */
  type Counts = map<string, map<string, Pos>>

  function Inner(m: Counts, g: string): map<string, Pos> {
    if g in m then m[g] else map[]
  }

  function Bump(m: Counts, g: string, t: string): Counts {
    m[g := Inner(m, g)[t := if t in Inner(m, g) then Inner(m, g)[t] + 1 else 1]]
  }

  /** Ids are visited in ascending order. */
  method Smallest(s: set<nat>) returns (m: nat)
    requires s != {}
    ensures m in s && forall x :: x in s ==> m <= x
  {
    m :| m in s;
    var rest := s - {m};
    while rest != {}
      invariant m in s && rest <= s
      invariant forall x :: x in s && x !in rest ==> m <= x
    {
      var n :| n in rest;
      if n < m {
        m := n;
      }
      rest := rest - {n};
    }
  }

  /******* Counting *******/

  /** Counts of group `g` before and after a replica that does or does not hit it. */
  ghost predicate Tallied(found: map<string, int>, varyCount: Counts, found': map<string, int>,
                          varyCount': Counts, g: string, hit: bool, marks: set<string>) {
    && Count(found', g) == Count(found, g) + (if hit then 1 else 0)
    && Inner(varyCount', g).Keys == Inner(varyCount, g).Keys + (if hit then marks else {})
  }

  /** Count a replica on a host with these tags into one group, if it belongs there. */
  method CountIn(p: Policy, tags: map<string, string>, g: string, found: map<string, int>, varyCount: Counts)
    returns (found': map<string, int>, varyCount': Counts, hit: bool)
    requires g in p.desired
    ensures hit <==> InGroup(p, tags, g)
    ensures Tallied(found, varyCount, found', varyCount', g, hit, Marks(p, tags))
    ensures forall x :: x != g ==> Count(found', x) == Count(found, x)
    ensures forall x :: x != g ==> Inner(varyCount', x) == Inner(varyCount, x)
  {
    found', varyCount', hit := found, varyCount, false;
    if MatchFilter(tags, FilterOf(p, g)) {
      hit := true;
      if p.vary.Some? {
        var key := p.vary.value;
        if key !in tags {
          varyCount' := varyCount'[g := Inner(varyCount', g)];
          hit := false;
        } else {
          varyCount' := Bump(varyCount', g, FormatTag(key, tags[key]));
        }
      }
      if hit {
        found' := found'[g := Count(found', g) + 1];
      }
    }
  }

  /** Count one replica into every group it belongs to. */
  method CountReplica(p: Policy, tags: map<string, string>, found: map<string, int>, varyCount: Counts)
    returns (found': map<string, int>, varyCount': Counts, ghost hits: set<string>, fits: bool)
    ensures hits == set g | g in p.desired && InGroup(p, tags, g)
    ensures fits <==> hits != {}
    ensures forall g :: g in p.desired ==>
              Tallied(found, varyCount, found', varyCount', g, g in hits, Marks(p, tags))
  {
    found', varyCount', hits, fits := found, varyCount, {}, false;
    var todo := p.desired.Keys;
    ghost var marks := Marks(p, tags);
    while todo != {}
      invariant forall g :: g in todo ==> g in p.desired
      invariant forall g :: g in hits ==> g in p.desired && g !in todo
      invariant fits <==> hits != {}
      invariant forall g :: g in p.desired && g !in todo ==> (g in hits <==> InGroup(p, tags, g))
      invariant forall g :: g in p.desired ==>
                  Tallied(found, varyCount, found', varyCount', g, g in hits, marks)
    {
      var g :| g in todo;
      ghost var f, v := found', varyCount';
      assert Tallied(found, varyCount, f, v, g, false, marks);
      var hit;
      found', varyCount', hit := CountIn(p, tags, g, found', varyCount');
      forall x | x in p.desired && x != g
        ensures Tallied(found, varyCount, found', varyCount', x, x in hits, marks)
      {
        assert Tallied(found, varyCount, f, v, x, x in hits, marks);
      }
      todo := todo - {g};
      if hit {
        fits, hits := true, hits + {g};
      }
    }
  }

  /** The registry without the replicas still to be looked at. */
  function Seen(s: State, todo: set<nat>): State {
    s.(replicas := s.replicas - todo)
  }

  /** Every group's count and vary values, over all replicas of the shard. */
  ghost predicate GroupsCounted(s: State, k: nat, p: Policy, found: map<string, int>, varyCount: Counts) {
    forall g :: g in p.desired ==>
      Count(found, g) == |Found(s, k, p, g)| && Inner(varyCount, g).Keys == VaryTags(s, k, p, g)
  }

  /** The misfits in ascending order, and the hosts of the others. */
  ghost predicate RowsSorted(s: State, k: nat, p: Policy, undesired: seq<nat>, occupied: set<string>) {
    && (forall r :: r in undesired <==> r in Undesired(s, k, p))
    && (forall i, j :: 0 <= i < j < |undesired| ==> undesired[i] < undesired[j])
    && occupied == Occupied(s, k, p)
  }

  method CountReplicas(s: State, k: nat, p: Policy)
    returns (found: map<string, int>, varyCount: Counts, undesired: seq<nat>, occupied: set<string>)
    ensures GroupsCounted(s, k, p, found, varyCount)
    ensures RowsSorted(s, k, p, undesired, occupied)
  {
    found, varyCount, undesired, occupied := map[], map[], [], {};
    var todo := OfShard(s.replicas, k);
    NothingSeen(s, k, p);
    while todo != {}
      invariant forall r :: r in todo ==> r in s.replicas && s.replicas[r].shardId == k
      invariant GroupsCounted(Seen(s, todo), k, p, found, varyCount)
      invariant RowsSorted(Seen(s, todo), k, p, undesired, occupied)
      invariant forall r, x :: r in undesired && x in todo ==> r < x
    {
      var r := Smallest(todo);
      var host := s.replicas[r].hostId;
      var found', varyCount', hits, fits := CountReplica(p, TagsOn(s, host), found, varyCount);
      GroupsStep(s, k, p, todo, r, found, varyCount, found', varyCount', hits);
      RowsStep(s, k, p, todo, r, undesired, occupied);
      found, varyCount := found', varyCount';
      assert fits <==> Belongs(p, TagsOn(s, host));
      if fits {
        occupied := occupied + {host};
      } else {
        undesired := undesired + [r];
      }
      todo := todo - {r};
    }
    assert s.replicas - {} == s.replicas;
  }

  lemma NothingSeen(s: State, k: nat, p: Policy)
    ensures GroupsCounted(Seen(s, OfShard(s.replicas, k)), k, p, map[], map[])
    ensures RowsSorted(Seen(s, OfShard(s.replicas, k)), k, p, [], {})
  {
  }

  lemma SeenAdds(s: State, k: nat, todo: set<nat>, r: nat)
    requires r in todo && forall x :: x in todo ==> x in s.replicas && s.replicas[x].shardId == k
    ensures Adds(Seen(s, todo), Seen(s, todo - {r}), k, r, s.replicas[r].hostId)
  {
  }

  lemma GroupsStep(s: State, k: nat, p: Policy, todo: set<nat>, r: nat, found: map<string, int>,
                   varyCount: Counts, found': map<string, int>, varyCount': Counts, hits: set<string>)
    requires r in todo && forall x :: x in todo ==> x in s.replicas && s.replicas[x].shardId == k
    requires GroupsCounted(Seen(s, todo), k, p, found, varyCount)
    requires hits == set g | g in p.desired && InGroup(p, TagsOn(s, s.replicas[r].hostId), g)
    requires forall g :: g in p.desired ==>
               Tallied(found, varyCount, found', varyCount', g, g in hits, Marks(p, TagsOn(s, s.replicas[r].hostId)))
    ensures GroupsCounted(Seen(s, todo - {r}), k, p, found', varyCount')
  {
    var host := s.replicas[r].hostId;
    var a, b := Seen(s, todo), Seen(s, todo - {r});
    SeenAdds(s, k, todo, r);
    forall g | g in p.desired
      ensures Count(found', g) == |Found(b, k, p, g)| && Inner(varyCount', g).Keys == VaryTags(b, k, p, g)
    {
      GroupStep(a, b, k, p, r, host, g, found, varyCount, found', varyCount');
    }
  }

  lemma GroupStep(a: State, b: State, k: nat, p: Policy, r: nat, host: string, g: string, found: map<string, int>,
                  varyCount: Counts, found': map<string, int>, varyCount': Counts)
    requires Adds(a, b, k, r, host)
    requires Count(found, g) == |Found(a, k, p, g)| && Inner(varyCount, g).Keys == VaryTags(a, k, p, g)
    requires Tallied(found, varyCount, found', varyCount', g, InGroup(p, TagsOn(a, host), g), Marks(p, TagsOn(a, host)))
    ensures Count(found', g) == |Found(b, k, p, g)| && Inner(varyCount', g).Keys == VaryTags(b, k, p, g)
  {
    FoundAdds(a, b, k, p, r, host, g);
    VaryTagsAdds(a, b, k, p, r, host, g);
    assert r !in Found(a, k, p, g);
  }

  lemma RowsStep(s: State, k: nat, p: Policy, todo: set<nat>, r: nat, undesired: seq<nat>, occupied: set<string>)
    requires r in todo && forall x :: x in todo ==> x in s.replicas && s.replicas[x].shardId == k
    requires RowsSorted(Seen(s, todo), k, p, undesired, occupied)
    requires forall x :: x in undesired ==> x < r
    ensures var host := s.replicas[r].hostId;
            if Belongs(p, TagsOn(s, host))
            then RowsSorted(Seen(s, todo - {r}), k, p, undesired, occupied + {host})
            else RowsSorted(Seen(s, todo - {r}), k, p, undesired + [r], occupied)
  {
    var host := s.replicas[r].hostId;
    var a, b := Seen(s, todo), Seen(s, todo - {r});
    SeenAdds(s, k, todo, r);
    UndesiredAdds(a, b, k, p, r, host);
    OccupiedAdds(a, b, k, p, r, host);
    assert TagsOn(a, host) == TagsOn(s, host);
    if Belongs(p, TagsOn(s, host)) {
      assert Undesired(b, k, p) == Undesired(a, k, p);
      assert RowsSorted(b, k, p, undesired, occupied + {host});
    } else {
      var more := undesired + [r];
      assert forall i :: 0 <= i < |undesired| ==> undesired[i] in undesired;
      assert forall x :: x in more <==> x in undesired || x == r;
      assert forall i, j :: 0 <= i < j < |more| ==> more[i] < more[j];
      assert RowsSorted(b, k, p, more, occupied);
    }
  }

  /******* Matching hosts *******/

  type Lists = map<string, seq<string>>

  function ListOf(m: Lists, g: string): seq<string> {
    if g in m then m[g] else []
  }

  /** Hosts are matched for every group whose count is off, in either direction. */
  predicate Open(p: Policy, found: map<string, int>, g: string) {
    g in p.desired && Count(found, g) != p.desired[g]
  }

  ghost predicate Matched(matches: Lists, varyMatch: Counts, matches': Lists, varyMatch': Counts, g: string,
                          added: seq<string>, marks: set<string>) {
    && ListOf(matches', g) == ListOf(matches, g) + added
    && Inner(varyMatch', g).Keys == Inner(varyMatch, g).Keys + if added != [] then marks else {}
  }

  method MatchHostIn(s: State, p: Policy, g: string, host: string, matches: Lists, varyMatch: Counts)
    returns (matches': Lists, varyMatch': Counts, ghost added: seq<string>)
    ensures added == if MatchFilter(TagsOn(s, host), FilterOf(p, g)) then [host] else []
    ensures Matched(matches, varyMatch, matches', varyMatch', g, added, Marks(p, TagsOn(s, host)))
    ensures forall x :: x != g ==> ListOf(matches', x) == ListOf(matches, x)
    ensures forall x :: x != g ==> Inner(varyMatch', x) == Inner(varyMatch, x)
  {
    matches', varyMatch', added := matches, varyMatch, [];
    if MatchFilter(TagsOn(s, host), FilterOf(p, g)) {
      added := [host];
      matches' := matches'[g := ListOf(matches, g) + [host]];
      if p.vary.Some? {
        varyMatch' := Bump(varyMatch', g, VaryTag(p.vary.value, TagsOn(s, host)));
      }
    }
  }

  ghost function AddedTo(s: State, p: Policy, found: map<string, int>, g: string, host: string): seq<string> {
    if Open(p, found, g) && MatchFilter(TagsOn(s, host), FilterOf(p, g)) then [host] else []
  }

  method MatchHost(s: State, p: Policy, found: map<string, int>, host: string, matches: Lists, varyMatch: Counts)
    returns (matches': Lists, varyMatch': Counts)
    ensures forall g :: g in p.desired ==>
              Matched(matches, varyMatch, matches', varyMatch', g, AddedTo(s, p, found, g, host),
                      Marks(p, TagsOn(s, host)))
  {
    matches', varyMatch' := matches, varyMatch;
    var todo := p.desired.Keys;
    ghost var marks := Marks(p, TagsOn(s, host));
    while todo != {}
      invariant forall g :: g in todo ==> g in p.desired
      invariant forall g :: g in p.desired ==>
                  Matched(matches, varyMatch, matches', varyMatch', g,
                          if g in todo then [] else AddedTo(s, p, found, g, host), marks)
    {
      var g :| g in todo;
      ghost var m, v := matches', varyMatch';
      assert Matched(matches, varyMatch, m, v, g, [], marks);
      if Count(found, g) != p.desired[g] {
        ghost var added;
        matches', varyMatch', added := MatchHostIn(s, p, g, host, matches', varyMatch');
      }
      forall x | x in p.desired && x != g
        ensures Matched(matches, varyMatch, matches', varyMatch', x,
                        if x in todo then [] else AddedTo(s, p, found, x, host), marks)
      {
        assert Matched(matches, varyMatch, m, v, x,
                       if x in todo then [] else AddedTo(s, p, found, x, host), marks);
      }
      todo := todo - {g};
    }
  }

  /** The list holds the unoccupied matching hosts outside `todo`, and the tags are theirs. */
  ghost predicate Listed(s: State, p: Policy, g: string, occupied: set<string>, todo: set<string>,
                         list: seq<string>, tags: set<string>) {
    && (forall h :: h in list <==>
          h in s.hosts && h !in todo && h !in occupied && MatchFilter(TagsOn(s, h), FilterOf(p, g)))
    && tags == TagsAmong(s, p, list)
  }

  ghost function TagsAmong(s: State, p: Policy, list: seq<string>): set<string> {
    if p.vary.None? then {} else set h | h in list :: VaryTag(p.vary.value, TagsOn(s, h))
  }

  method FindMatches(s: State, p: Policy, found: map<string, int>, occupied: set<string>)
    returns (matches: Lists, varyMatch: Counts)
    ensures forall g :: Open(p, found, g) ==>
              Listed(s, p, g, occupied, {}, ListOf(matches, g), Inner(varyMatch, g).Keys)
  {
    matches, varyMatch := map[], map[];
    var todo := s.hosts.Keys;
    while todo != {}
      invariant todo <= s.hosts.Keys
      invariant forall g :: Open(p, found, g) ==>
                  Listed(s, p, g, occupied, todo, ListOf(matches, g), Inner(varyMatch, g).Keys)
    {
      var host :| host in todo;
      ghost var m, v := matches, varyMatch;
      if host !in occupied {
        matches, varyMatch := MatchHost(s, p, found, host, matches, varyMatch);
      }
      forall g | Open(p, found, g)
        ensures Listed(s, p, g, occupied, todo - {host}, ListOf(matches, g), Inner(varyMatch, g).Keys)
      {
        if host !in occupied {
          assert Matched(m, v, matches, varyMatch, g, AddedTo(s, p, found, g, host), Marks(p, TagsOn(s, host)));
          ListedStep(s, p, g, occupied, todo, host, ListOf(m, g), Inner(v, g).Keys);
        }
      }
      todo := todo - {host};
    }
  }

  lemma ListedStep(s: State, p: Policy, g: string, occupied: set<string>, todo: set<string>, host: string,
                   list: seq<string>, tags: set<string>)
    requires host in todo && host in s.hosts && host !in occupied
    requires Listed(s, p, g, occupied, todo, list, tags)
    ensures if MatchFilter(TagsOn(s, host), FilterOf(p, g))
            then Listed(s, p, g, occupied, todo - {host}, list + [host], tags + Marks(p, TagsOn(s, host)))
            else Listed(s, p, g, occupied, todo - {host}, list + [], tags + {})
  {
    assert forall h :: h in list + [host] <==> h in list || h == host;
    assert list + [] == list;
    if p.vary.Some? {
      assert TagsAmong(s, p, list + [host]) == TagsAmong(s, p, list) + Marks(p, TagsOn(s, host));
    }
  }

  /******* Vary criteria *******/

  /** All tags have the same key part, and survive being split and put together again. */
  ghost predicate Uniform(tags: set<string>, key: string) {
    forall t :: t in tags ==> ParseTag(t).0 == key && FormatTag(key, ParseTag(t).1) == t
  }

  /** The key part of every tag formatted with this vary key. */
  function KeyPart(key: string): string {
    ParseTag(FormatTag(key, "")).0
  }

  lemma PlainTag(key: string, v: string)
    requires key != "" && key[0] != '='
    ensures ParseTag(FormatTag(key, v)).0 == KeyPart(key)
    ensures FormatTag(KeyPart(key), ParseTag(FormatTag(key, v)).1) == FormatTag(key, v)
    ensures KeyPart(key) != FormatTag(key, v)
  {
    var t, u := FormatTag(key, v), FormatTag(key, "");
    var i, j := IndexOf(t, '='), IndexOf(u, '=');
    assert t[|key|] == '=' && u[|key|] == '=';
    assert forall x :: 0 <= x <= |key| ==> t[x] == u[x];
    assert t[0] == key[0];
    assert i == j >= 1;
    assert t[..i] == u[..i];
    assert t == t[..i] + "=" + t[i + 1..];
  }

  lemma PlainVaryUniform(s: State, k: nat, p: Policy, g: string)
    requires p.vary.Some? && PlainVary(p)
    ensures Uniform(VaryTags(s, k, p, g), KeyPart(p.vary.value))
    ensures KeyPart(p.vary.value) !in VaryTags(s, k, p, g)
  {
    forall t | t in VaryTags(s, k, p, g)
      ensures ParseTag(t).0 == KeyPart(p.vary.value) && FormatTag(KeyPart(p.vary.value), ParseTag(t).1) == t
      ensures t != KeyPart(p.vary.value)
    {
      var r :| r in Found(s, k, p, g) && VaryTag(p.vary.value, TagsOn(s, s.replicas[r].hostId)) == t;
      var tags := TagsOn(s, s.replicas[r].hostId);
      PlainTag(p.vary.value, if p.vary.value in tags then tags[p.vary.value] else "");
    }
  }

  /** Per tag key, the value with the largest count among those some host still has. */
  method BestValues(counts: map<string, Pos>, available: map<string, int>, ghost key: string)
    returns (values: map<string, string>, best: map<string, Pos>)
    ensures values.Keys == best.Keys
    ensures Uniform(counts.Keys, key) ==>
              && values.Keys <= {key}
              && (values.Keys == {} <==> forall t :: t in counts ==> Count(available, t) == 0)
              && (key in values ==> FormatTag(key, values[key]) in counts)
  {
    values, best := map[], map[];
    var todo := counts.Keys;
    while todo != {}
      invariant todo <= counts.Keys && values.Keys == best.Keys
      invariant Uniform(counts.Keys, key) ==>
                  && values.Keys <= {key}
                  && (values.Keys == {} <==> forall t :: t in counts && t !in todo ==> Count(available, t) == 0)
                  && (key in values ==> FormatTag(key, values[key]) in counts)
    {
      var t :| t in todo;
      todo := todo - {t};
      if Count(available, t) != 0 {
        var (k, v) := ParseTag(t);
        if k !in best || best[k] < counts[t] {
          values, best := values[k := v], best[k := counts[t]];
        }
      }
    }
  }

  /** Members give up on the vary values they already have; other groups must match them. */
  method RequiredTags(values: map<string, string>, best: map<string, Pos>, member: bool)
    returns (tags: seq<string>)
    requires values.Keys == best.Keys
    ensures member ==> tags == []
    ensures !member ==> forall t :: t in tags <==> exists k :: k in values && t == FormatTag(k, values[k])
  {
    tags := [];
    var todo := best.Keys;
    while todo != {}
      invariant todo <= best.Keys
      invariant member ==> tags == []
      invariant !member ==> forall t :: t in tags <==>
                  exists k :: k in values && k !in todo && t == FormatTag(k, values[k])
    {
      var k :| k in todo;
      if best[k] > 0 && member {
        break;
      }
      tags := tags + [FormatTag(k, values[k])];
      todo := todo - {k};
    }
  }

  lemma AtMostOne(counts: map<string, Pos>, values: map<string, string>, available: map<string, int>, key: string)
    requires values.Keys <= {key}
    requires values.Keys == {} <==> forall t :: t in counts ==> Count(available, t) == 0
    ensures |values| >= |counts| <==> forall t :: t in counts ==> counts.Keys == {t} && Count(available, t) != 0
  {
    assert |values| == |values.Keys| && |counts| == |counts.Keys|;
    assert values.Keys == {} || values.Keys == {key};
    if t :| t in counts {
      var rest := counts.Keys - {t};
      assert counts.Keys == {t} + rest;
      if u :| u in rest {
        assert |counts.Keys| == 1 + |rest|;
        assert |rest| == 1 + |rest - {u}|;
      }
    }
  }

  /** The tags that the next host must carry, or no way to go on. */
  method PickVaryTags(counts: map<string, Pos>, available: map<string, int>, member: bool, ghost key: string)
    returns (ok: bool, tags: seq<string>)
    ensures Uniform(counts.Keys, key) ==>
              && (ok <==> forall t :: t in counts ==> counts.Keys == {t} && Count(available, t) != 0)
              && (ok ==> if member then tags == [] else forall t :: t in counts <==> t in tags)
  {
    var values, best := BestValues(counts, available, key);
    ok, tags := |values| >= |counts|, [];
    if Uniform(counts.Keys, key) {
      AtMostOne(counts, values, available, key);
    }
    if ok {
      tags := RequiredTags(values, best, member);
      if Uniform(counts.Keys, key) && !member {
        forall t ensures t in counts <==> t in tags {
          if t in counts {
            assert values.Keys != {} && key in values;
            assert FormatTag(key, values[key]) == t;
          }
        }
      }
    }
  }

  /******* Adding replicas *******/

  /** First host of the list that is free and carries the tags, or the length of the list. */
  method FirstFree(s: State, list: seq<string>, occupied: set<string>, tags: seq<string>) returns (j: nat)
    ensures j <= |list|
    ensures j < |list| ==> list[j] !in occupied && MatchFilter(TagsOn(s, list[j]), tags)
    ensures j == |list| ==>
              forall h :: h in list && h !in occupied ==> !MatchFilter(TagsOn(s, h), tags)
  {
    j := 0;
    while j < |list|
      invariant j <= |list|
      invariant forall i :: 0 <= i < j ==> list[i] in occupied || !MatchFilter(TagsOn(s, list[i]), tags)
    {
      if list[j] !in occupied && (|tags| == 0 || MatchFilter(TagsOn(s, list[j]), tags)) {
        return;
      }
      j := j + 1;
    }
  }

  /** After a create: one more replica has each required tag. The host count is lowered under the
      tag's key alone, which is not where it was raised. */
  method Consume(counts: map<string, Pos>, available: map<string, int>, tags: seq<string>)
    returns (counts': map<string, Pos>, available': map<string, int>)
    ensures (forall t :: t in tags ==> t in counts) ==> counts'.Keys == counts.Keys
    ensures forall t :: (forall x :: x in tags ==> ParseTag(x).0 != t) ==> Count(available', t) == Count(available, t)
  {
    counts', available' := counts, available;
    for i := 0 to |tags|
      invariant (forall t :: t in tags ==> t in counts) ==> counts'.Keys == counts.Keys
      invariant forall t :: (forall x :: x in tags ==> ParseTag(x).0 != t) ==> Count(available', t) == Count(available, t)
    {
      var (k, _) := ParseTag(tags[i]);
      available' := available'[k := Count(available', k) - 1];
      counts' := counts'[tags[i] := if tags[i] in counts' then counts'[tags[i]] + 1 else 1];
    }
  }

  function HostSet(hosts: seq<string>): set<string> {
    set i | 0 <= i < |hosts| :: hosts[i]
  }

  function CreatesIn(k: nat, g: string, hosts: seq<string>): seq<Op> {
    seq(|hosts|, i requires 0 <= i < |hosts| => Create(hosts[i], k, g != MEMBER))
  }

  /** What the pass knows about the group's vary values, if the vary key is plain. */
  ghost predicate VaryKnown(s: State, k: nat, p: Policy, g: string, counts: map<string, Pos>,
                            available: map<string, int>) {
    && counts.Keys == VaryTags(s, k, p, g)
    && forall t :: t in VaryTags(s, k, p, g) ==>
         (Count(available, t) != 0 <==>
          exists h :: h in Candidates(s, k, p, g) && t in Marks(p, TagsOn(s, h)))
  }

  ghost function VaryKey(p: Policy): string {
    if p.vary.Some? then KeyPart(p.vary.value) else ""
  }

  lemma KnownUniform(s: State, k: nat, p: Policy, g: string)
    requires PlainVary(p)
    ensures Uniform(VaryTags(s, k, p, g), VaryKey(p))
    ensures VaryKey(p) !in VaryTags(s, k, p, g)
  {
    if p.vary.Some? {
      PlainVaryUniform(s, k, p, g);
    }
  }

  /** Going on is possible exactly when the group is not blocked. */
  lemma BlockedExactly(s: State, k: nat, p: Policy, g: string, counts: map<string, Pos>, available: map<string, int>)
    requires VaryKnown(s, k, p, g, counts, available)
    ensures (forall t :: t in counts ==> counts.Keys == {t} && Count(available, t) != 0)
            <==> !Blocked(s, k, p, g)
  {
    var vt := VaryTags(s, k, p, g);
    forall t | t in vt
      ensures Count(available, t) != 0 <==>
              exists h :: h in Candidates(s, k, p, g) && VaryTag(p.vary.value, TagsOn(s, h)) == t
    {
    }
  }

  /** The hosts and vary values of one group between two creates. */
  ghost predicate PoolOk(s: State, k: nat, p: Policy, g: string, list: seq<string>, counts: map<string, Pos>,
                         available: map<string, int>, occupied: set<string>) {
    && (forall h :: h in list ==> h in Candidates(s, k, p, g))
    && (forall h :: h in Candidates(s, k, p, g) && h !in occupied ==> h in list)
    && (PlainVary(p) ==> VaryKnown(s, k, p, g, counts, available))
  }

  datatype Attempt = Added(host: string) | Stuck | Failed

  lemma KeepsKnown(s: State, k: nat, p: Policy, g: string, counts: map<string, Pos>, available: map<string, int>,
                   tags: seq<string>, counts': map<string, Pos>, available': map<string, int>)
    requires PlainVary(p) && VaryKnown(s, k, p, g, counts, available)
    requires forall t :: t in tags ==> t in counts
    requires counts'.Keys == counts.Keys
    requires forall t :: (forall x :: x in tags ==> ParseTag(x).0 != t) ==> Count(available', t) == Count(available, t)
    ensures VaryKnown(s, k, p, g, counts', available')
  {
    KnownUniform(s, k, p, g);
    forall t | t in VaryTags(s, k, p, g) ensures Count(available', t) == Count(available, t) {
      assert forall x :: x in tags ==> ParseTag(x).0 == VaryKey(p) != t;
    }
  }

  /** One attempt to add a replica to a group. */
  method AddOne(controls: Controls, s: State, k: nat, p: Policy, g: string, list: seq<string>,
                counts: map<string, Pos>, available: map<string, int>, occupied: set<string>)
    returns (a: Attempt, list': seq<string>, counts': map<string, Pos>, available': map<string, int>)
    requires PoolOk(s, k, p, g, list, counts, available, occupied)
    modifies controls
    ensures Asked(controls.answers, old(controls.asked), controls.asked, !a.Failed?)
    ensures !a.Added? ==> controls.ops == old(controls.ops) && controls.updated == old(controls.updated)
    ensures a.Stuck? && PlainVary(p) ==> Eligible(s, k, p, g) <= occupied
    ensures a.Added? ==>
              && controls.ops == old(controls.ops) + [Create(a.host, k, g != MEMBER)]
              && controls.updated
              && a.host in Candidates(s, k, p, g) && a.host !in occupied
              && (PlainVary(p) ==> a.host in Eligible(s, k, p, g))
              && PoolOk(s, k, p, g, list', counts', available', occupied + {a.host})
  {
    list', counts', available' := list, counts, available;
    if |list| == 0 {
      return Stuck, list, counts, available;
    }
    var go, tags := PickVaryTags(counts, available, g == MEMBER, VaryKey(p));
    if PlainVary(p) {
      KnownUniform(s, k, p, g);
      BlockedExactly(s, k, p, g, counts, available);
    }
    if !go {
      return Stuck, list, counts, available;
    }
    var j := FirstFree(s, list, occupied, tags);
    if PlainVary(p) {
      EligibleExactly(s, k, p, g, tags);
    }
    if j == |list| {
      return Stuck, list, counts, available;
    }
    var host := list[j];
    var ok := controls.Propose(Create(host, k, g != MEMBER));
    if !ok {
      return Failed, list, counts, available;
    }
    a := Added(host);
    counts', available' := Consume(counts, available, tags);
    list' := list[..j] + list[j + 1..];
    if PlainVary(p) {
      KeepsKnown(s, k, p, g, counts, available, tags, counts', available');
    }
    assert forall h :: h in list && h != host ==> h in list';
  }

  /** In a group that is not blocked, the required tags single out the eligible candidates. */
  lemma EligibleExactly(s: State, k: nat, p: Policy, g: string, tags: seq<string>)
    requires !Blocked(s, k, p, g)
    requires if g == MEMBER then tags == [] else forall t :: t in VaryTags(s, k, p, g) <==> t in tags
    ensures forall h :: h in Eligible(s, k, p, g) <==>
              h in Candidates(s, k, p, g) && MatchFilter(TagsOn(s, h), tags)
  {
    forall h | h in Candidates(s, k, p, g)
      ensures h in Eligible(s, k, p, g) <==> MatchFilter(TagsOn(s, h), tags)
    {
      if g != MEMBER {
        if MatchFilter(TagsOn(s, h), tags) {
          forall t | t in VaryTags(s, k, p, g) ensures MatchFilter(TagsOn(s, h), [t]) {
            var i :| 0 <= i < |tags| && tags[i] == t;
          }
        }
        if h in Eligible(s, k, p, g) {
          forall i | 0 <= i < |tags| ensures MatchTag(TagsOn(s, h), tags[i]) {
            assert tags[i] in VaryTags(s, k, p, g);
            assert MatchTag(TagsOn(s, h), [tags[i]][0]);
          }
        }
      }
    }
  }

  /** Distinct free candidates, eligible ones if the vary key is plain. */
  ghost predicate Chosen(s: State, k: nat, p: Policy, g: string, occupied: set<string>, hosts: seq<string>) {
    && (forall i :: 0 <= i < |hosts| ==> hosts[i] in Candidates(s, k, p, g) && hosts[i] !in occupied)
    && (forall i, j :: 0 <= i < j < |hosts| ==> hosts[i] != hosts[j])
    && (PlainVary(p) ==> forall i :: 0 <= i < |hosts| ==> hosts[i] in Eligible(s, k, p, g))
  }

  lemma ChosenSnoc(s: State, k: nat, p: Policy, g: string, occupied: set<string>, hosts: seq<string>, h: string)
    requires Chosen(s, k, p, g, occupied, hosts) && h in Candidates(s, k, p, g) && h !in occupied + HostSet(hosts)
    requires PlainVary(p) ==> h in Eligible(s, k, p, g)
    ensures Chosen(s, k, p, g, occupied, hosts + [h])
    ensures HostSet(hosts + [h]) == HostSet(hosts) + {h}
  {
    HostSetSnoc(hosts, h);
    forall i | 0 <= i < |hosts| ensures hosts[i] != h {
      assert hosts[i] in HostSet(hosts);
    }
  }

  lemma CreatesSnoc(k: nat, g: string, base: seq<Op>, hosts: seq<string>, h: string)
    ensures base + CreatesIn(k, g, hosts + [h]) == base + CreatesIn(k, g, hosts) + [Create(h, k, g != MEMBER)]
  {
    assert CreatesIn(k, g, hosts + [h]) == CreatesIn(k, g, hosts) + [Create(h, k, g != MEMBER)];
  }

  /** Add up to `n` replicas to one group. */
  method AddToGroup(controls: Controls, s: State, k: nat, p: Policy, g: string, n: nat,
                    matches: seq<string>, varyCount: map<string, Pos>, varyMatch: map<string, int>,
                    occupied0: set<string>)
    returns (ok: bool, occupied: set<string>, ghost hosts: seq<string>)
    requires PoolOk(s, k, p, g, matches, varyCount, varyMatch, occupied0)
    modifies controls
    ensures controls.ops == old(controls.ops) + CreatesIn(k, g, hosts)
    ensures controls.updated == (old(controls.updated) || hosts != [])
    ensures Asked(controls.answers, old(controls.asked), controls.asked, ok)
    ensures occupied == occupied0 + HostSet(hosts) && |hosts| <= n
    ensures Chosen(s, k, p, g, occupied0, hosts)
    ensures PlainVary(p) && ok ==> |hosts| == n || Eligible(s, k, p, g) <= occupied
  {
    var list, counts, available := matches, varyCount, varyMatch;
    occupied, hosts := occupied0, [];
    for i := 0 to n
      invariant |hosts| == i
      invariant controls.ops == old(controls.ops) + CreatesIn(k, g, hosts)
      invariant controls.updated == (old(controls.updated) || hosts != [])
      invariant Asked(controls.answers, old(controls.asked), controls.asked, true)
      invariant occupied == occupied0 + HostSet(hosts)
      invariant Chosen(s, k, p, g, occupied0, hosts)
      invariant PoolOk(s, k, p, g, list, counts, available, occupied)
    {
      var a;
      a, list, counts, available := AddOne(controls, s, k, p, g, list, counts, available, occupied);
      if !a.Added? {
        return a.Stuck?, occupied, hosts;
      }
      ChosenSnoc(s, k, p, g, occupied0, hosts, a.host);
      CreatesSnoc(k, g, old(controls.ops), hosts, a.host);
      occupied, hosts := occupied + {a.host}, hosts + [a.host];
    }
    ok := true;
  }

  lemma HostSetSnoc(hosts: seq<string>, h: string)
    ensures HostSet(hosts + [h]) == HostSet(hosts) + {h}
  {
    var more := hosts + [h];
    forall x | x in HostSet(hosts) ensures x in HostSet(more) {
      var i :| 0 <= i < |hosts| && hosts[i] == x;
      assert more[i] == x;
    }
    assert more[|hosts|] == h;
  }

  /******* The pass *******/

  function Batch(g: string, hosts: seq<string>): seq<Placed> {
    seq(|hosts|, i requires 0 <= i < |hosts| => Placed(hosts[i], g))
  }

  lemma {:induction false} CountBatch(placed: seq<Placed>, g: string, hosts: seq<string>, x: string)
    ensures CountOf(placed + Batch(g, hosts), x) == CountOf(placed, x) + if x == g then |hosts| else 0
  {
    if hosts == [] {
      assert placed + Batch(g, hosts) == placed;
    } else {
      var front := hosts[..|hosts| - 1];
      CountBatch(placed, g, front, x);
      var all := placed + Batch(g, hosts);
      assert all[..|all| - 1] == placed + Batch(g, front);
    }
  }

  lemma HostsBatch(placed: seq<Placed>, g: string, hosts: seq<string>)
    ensures PlacedHosts(placed + Batch(g, hosts)) == PlacedHosts(placed) + HostSet(hosts)
  {
    var all := placed + Batch(g, hosts);
    forall h | h in PlacedHosts(placed) ensures h in PlacedHosts(all) {
      var i :| 0 <= i < |placed| && placed[i].host == h;
      assert all[i].host == h;
    }
    forall h | h in HostSet(hosts) ensures h in PlacedHosts(all) {
      var i :| 0 <= i < |hosts| && hosts[i] == h;
      assert all[|placed| + i].host == h;
    }
  }

  lemma SoundBatch(s: State, k: nat, p: Policy, placed: seq<Placed>, g: string, hosts: seq<string>)
    requires Sound(s, k, p, placed) && g in p.desired
    requires CountOf(placed, g) == 0 && |hosts| <= Missing(s, k, p, g)
    requires Chosen(s, k, p, g, Occupied(s, k, p) + PlacedHosts(placed), hosts)
    requires g == MEMBER ==> placed == []
    ensures Sound(s, k, p, placed + Batch(g, hosts))
  {
    var all := placed + Batch(g, hosts);
    forall x ensures CountOf(all, x) <= Missing(s, k, p, x) {
      CountBatch(placed, g, hosts, x);
    }
    forall i, j | 0 <= i < j < |all| ensures all[i].host != all[j].host {
      if i < |placed| <= j {
        assert all[i].host in PlacedHosts(placed);
      }
    }
  }

  /** Maximality for the groups already handled. */
  ghost predicate MaximalFor(s: State, k: nat, p: Policy, placed: seq<Placed>, done: set<string>) {
    && (forall i :: 0 <= i < |placed| ==> placed[i].host in Eligible(s, k, p, placed[i].group))
    && (forall g :: g in done ==>
          CountOf(placed, g) == Missing(s, k, p, g) || Eligible(s, k, p, g) <= PlacedHosts(placed))
  }

  lemma MaximalBatch(s: State, k: nat, p: Policy, placed: seq<Placed>, done: set<string>, g: string, hosts: seq<string>)
    requires MaximalFor(s, k, p, placed, done) && g !in done && CountOf(placed, g) == 0
    requires forall i :: 0 <= i < |hosts| ==> hosts[i] in Eligible(s, k, p, g)
    requires |hosts| == Missing(s, k, p, g)
             || Eligible(s, k, p, g) <= Occupied(s, k, p) + PlacedHosts(placed) + HostSet(hosts)
    ensures MaximalFor(s, k, p, placed + Batch(g, hosts), done + {g})
  {
    var all := placed + Batch(g, hosts);
    HostsBatch(placed, g, hosts);
    forall x | x in done + {g}
      ensures CountOf(all, x) == Missing(s, k, p, x) || Eligible(s, k, p, x) <= PlacedHosts(all)
    {
      CountBatch(placed, g, hosts, x);
    }
  }

  function Min(a: nat, b: nat): nat {
    if a <= b then a else b
  }

  /** The member group comes first, so it gets all that its eligible hosts allow. */
  lemma MembersExact(s: State, k: nat, p: Policy, hosts: seq<string>)
    requires Chosen(s, k, p, MEMBER, Occupied(s, k, p), hosts) && PlainVary(p)
    requires |hosts| <= Missing(s, k, p, MEMBER)
    requires |hosts| == Missing(s, k, p, MEMBER)
             || Eligible(s, k, p, MEMBER) <= Occupied(s, k, p) + HostSet(hosts)
    ensures |hosts| == Min(Missing(s, k, p, MEMBER), |Eligible(s, k, p, MEMBER)|)
  {
    HostSetSize(hosts);
    var eligible := Eligible(s, k, p, MEMBER);
    EligibleFree(s, k, p, MEMBER);
    Squeezed(hosts, eligible, Occupied(s, k, p));
  }

  lemma EligibleFree(s: State, k: nat, p: Policy, g: string)
    ensures forall h :: h in Eligible(s, k, p, g) ==> h !in Occupied(s, k, p)
  {
  }

  lemma Squeezed(hosts: seq<string>, all: set<string>, taken: set<string>)
    requires (forall i :: 0 <= i < |hosts| ==> hosts[i] in all) && forall h :: h in all ==> h !in taken
    ensures |HostSet(hosts)| <= |all|
    ensures all <= taken + HostSet(hosts) ==> all == HostSet(hosts)
  {
    assert HostSet(hosts) <= all;
    SubsetSize(HostSet(hosts), all);
  }

  lemma {:induction false} HostSetSize(hosts: seq<string>)
    requires forall i, j :: 0 <= i < j < |hosts| ==> hosts[i] != hosts[j]
    ensures |HostSet(hosts)| == |hosts|
  {
    if hosts != [] {
      var front, last := hosts[..|hosts| - 1], hosts[|hosts| - 1];
      HostSetSize(front);
      HostSetSnoc(front, last);
      assert hosts == front + [last];
    }
  }

  /** The groups in some order, the member group first. */
  method OrderGroups(desired: map<string, int>) returns (order: seq<string>)
    ensures forall g :: g in order <==> g in desired
    ensures forall i, j :: 0 <= i < j < |order| ==> order[i] != order[j]
    ensures MEMBER in desired ==> order != [] && order[0] == MEMBER
  {
    order := [];
    var todo := desired.Keys;
    while todo != {}
      invariant todo <= desired.Keys
      invariant forall g :: g in order <==> g in desired && g !in todo
      invariant forall i, j :: 0 <= i < j < |order| ==> order[i] != order[j]
      invariant MEMBER in order ==> order[0] == MEMBER
    {
      var g :| g in todo;
      if g == MEMBER {
        order := [g] + order;
      } else {
        order := order + [g];
      }
      todo := todo - {g};
    }
  }

  /** All that the earlier phases established about a group with missing replicas. */
  ghost predicate Prepared(s: State, k: nat, p: Policy, g: string, list: seq<string>, counts: map<string, Pos>,
                           available: map<string, Pos>) {
    && (forall h :: h in list <==> h in Candidates(s, k, p, g))
    && counts.Keys == VaryTags(s, k, p, g)
    && available.Keys == TagsAmong(s, p, list)
  }

  lemma PreparedPool(s: State, k: nat, p: Policy, g: string, list: seq<string>, counts: map<string, Pos>,
                     available: map<string, Pos>, occupied: set<string>)
    requires Prepared(s, k, p, g, list, counts, available)
    ensures PoolOk(s, k, p, g, list, counts, available, occupied)
  {
    forall t | t in VaryTags(s, k, p, g)
      ensures Count(available, t) != 0 <==>
              exists h :: h in Candidates(s, k, p, g) && t in Marks(p, TagsOn(s, h))
    {
      if t in available {
        var h :| h in list && VaryTag(p.vary.value, TagsOn(s, h)) == t;
        assert h in Candidates(s, k, p, g) && t in Marks(p, TagsOn(s, h));
      }
      if h :| h in Candidates(s, k, p, g) && t in Marks(p, TagsOn(s, h)) {
        assert h in list;
      }
    }
  }

  ghost predicate MembersDone(s: State, k: nat, p: Policy, placed: seq<Placed>) {
    CountOf(placed, MEMBER) == Min(Missing(s, k, p, MEMBER), |Eligible(s, k, p, MEMBER)|)
  }

  /** All groups once each, the member group first. */
  ghost predicate IsOrder(p: Policy, order: seq<string>) {
    && (forall g :: g in order <==> g in p.desired)
    && (forall i, j :: 0 <= i < j < |order| ==> order[i] != order[j])
    && (MEMBER in p.desired ==> order != [] && order[0] == MEMBER)
  }

  /** The first `i` groups have been filled as far as they can be. */
  ghost predicate Filled(s: State, k: nat, p: Policy, order: seq<string>, i: nat, placed: seq<Placed>)
    requires i <= |order|
  {
    && Sound(s, k, p, placed)
    && (forall g :: g !in order[..i] ==> CountOf(placed, g) == 0)
    && (i == 0 ==> placed == [])
    && (PlainVary(p) ==> MaximalFor(s, k, p, placed, HostSet(order[..i])))
    && (PlainVary(p) && MEMBER in p.desired && i > 0 ==> MembersDone(s, k, p, placed))
  }

  lemma FilledStep(s: State, k: nat, p: Policy, order: seq<string>, i: nat, placed: seq<Placed>, hosts: seq<string>)
    requires IsOrder(p, order) && i < |order| && Filled(s, k, p, order, i, placed)
    requires |hosts| <= Missing(s, k, p, order[i])
    requires Chosen(s, k, p, order[i], Occupied(s, k, p) + PlacedHosts(placed), hosts)
    requires PlainVary(p) ==>
               || |hosts| == Missing(s, k, p, order[i])
               || Eligible(s, k, p, order[i]) <= Occupied(s, k, p) + PlacedHosts(placed) + HostSet(hosts)
    ensures Filled(s, k, p, order, i + 1, placed + Batch(order[i], hosts))
  {
    HostSetOrder(order, i);
    NotBefore(order, i);
    SoundBatch(s, k, p, placed, order[i], hosts);
    FilledCounts(order, i, placed, hosts);
    if PlainVary(p) {
      MaximalBatch(s, k, p, placed, HostSet(order[..i]), order[i], hosts);
      FilledMembers(s, k, p, order, i, placed, hosts);
    }
  }

  lemma FilledCounts(order: seq<string>, i: nat, placed: seq<Placed>, hosts: seq<string>)
    requires i < |order| && forall g :: g !in order[..i] ==> CountOf(placed, g) == 0
    ensures forall g :: g !in order[..i + 1] ==> CountOf(placed + Batch(order[i], hosts), g) == 0
  {
    assert order[..i + 1] == order[..i] + [order[i]];
    forall g | g !in order[..i + 1] ensures CountOf(placed + Batch(order[i], hosts), g) == 0 {
      CountBatch(placed, order[i], hosts, g);
    }
  }

  /** The first batch settles the members; later batches leave them alone. */
  lemma FilledMembers(s: State, k: nat, p: Policy, order: seq<string>, i: nat, placed: seq<Placed>, hosts: seq<string>)
    requires i < |order| && PlainVary(p) && IsOrder(p, order)
    requires MEMBER in p.desired && i > 0 ==> MembersDone(s, k, p, placed)
    requires i == 0 ==> placed == []
    requires |hosts| <= Missing(s, k, p, order[i])
    requires Chosen(s, k, p, order[i], Occupied(s, k, p) + PlacedHosts(placed), hosts)
    requires || |hosts| == Missing(s, k, p, order[i])
             || Eligible(s, k, p, order[i]) <= Occupied(s, k, p) + PlacedHosts(placed) + HostSet(hosts)
    ensures MEMBER in p.desired ==> MembersDone(s, k, p, placed + Batch(order[i], hosts))
  {
    if MEMBER in p.desired {
      CountBatch(placed, order[i], hosts, MEMBER);
      if i == 0 {
        assert Occupied(s, k, p) + PlacedHosts([]) == Occupied(s, k, p);
        MembersExact(s, k, p, hosts);
      } else {
        NotBefore(order, i);
        assert order[0] == MEMBER;
      }
    }
  }

  lemma NotBefore(order: seq<string>, i: nat)
    requires i < |order| && forall x, y :: 0 <= x < y < |order| ==> order[x] != order[y]
    ensures order[i] !in order[..i]
  {
  }

  /** A create that fails leaves the group where it is. */
  lemma FilledPartly(s: State, k: nat, p: Policy, order: seq<string>, i: nat, placed: seq<Placed>, hosts: seq<string>)
    requires IsOrder(p, order) && i < |order| && Filled(s, k, p, order, i, placed)
    requires |hosts| <= Missing(s, k, p, order[i])
    requires Chosen(s, k, p, order[i], Occupied(s, k, p) + PlacedHosts(placed), hosts)
    ensures var all := placed + Batch(order[i], hosts);
            && Sound(s, k, p, all)
            && (PlainVary(p) ==> forall j :: 0 <= j < |all| ==> all[j].host in Eligible(s, k, p, all[j].group))
  {
    HostSetOrder(order, i);
    NotBefore(order, i);
    SoundBatch(s, k, p, placed, order[i], hosts);
  }

  lemma HostSetOrder(order: seq<string>, i: nat)
    requires i < |order| && forall x, y :: 0 <= x < y < |order| ==> order[x] != order[y]
    ensures HostSet(order[..i + 1]) == HostSet(order[..i]) + {order[i]}
    ensures order[i] !in HostSet(order[..i])
  {
    assert order[..i + 1] == order[..i] + [order[i]];
    HostSetSnoc(order[..i], order[i]);
  }

  lemma FilledAll(s: State, k: nat, p: Policy, order: seq<string>, placed: seq<Placed>)
    requires IsOrder(p, order) && Filled(s, k, p, order, |order|, placed) && PlainVary(p)
    ensures Maximal(s, k, p, placed)
    ensures MEMBER in p.desired ==> MembersDone(s, k, p, placed)
  {
    assert order[..|order|] == order;
    forall g | g in p.desired ensures g in HostSet(order) {
      var i :| 0 <= i < |order| && order[i] == g;
    }
  }

  /** Sound so far, with eligible hosts only if the vary key is plain. */
  ghost predicate Partly(s: State, k: nat, p: Policy, placed: seq<Placed>) {
    && Sound(s, k, p, placed)
    && (PlainVary(p) ==> forall i :: 0 <= i < |placed| ==> placed[i].host in Eligible(s, k, p, placed[i].group))
  }

  method FillGroup(controls: Controls, s: State, k: nat, p: Policy, found: map<string, int>, order: seq<string>,
                   i: nat, list: seq<string>, varyCount: map<string, Pos>, varyMatch: map<string, Pos>,
                   occupied: set<string>, ghost placed: seq<Placed>, ghost base: seq<Op>)
    returns (ok: bool, occupied': set<string>, ghost placed': seq<Placed>)
    requires controls.ops == base + Creates(k, placed)
    requires IsOrder(p, order) && i < |order| && Filled(s, k, p, order, i, placed)
    requires Count(found, order[i]) == |Found(s, k, p, order[i])|
    requires Missing(s, k, p, order[i]) > 0 ==> Prepared(s, k, p, order[i], list, varyCount, varyMatch)
    requires occupied == Occupied(s, k, p) + PlacedHosts(placed)
    modifies controls
    ensures controls.ops == base + Creates(k, placed')
    ensures |placed| <= |placed'| && controls.updated == (old(controls.updated) || |placed| < |placed'|)
    ensures Asked(controls.answers, old(controls.asked), controls.asked, ok)
    ensures occupied' == Occupied(s, k, p) + PlacedHosts(placed')
    ensures if ok then Filled(s, k, p, order, i + 1, placed') else Partly(s, k, p, placed')
  {
    var g := order[i];
    var n := if Count(found, g) < p.desired[g] then p.desired[g] - Count(found, g) else 0;
    ghost var hosts := [];
    ok, occupied' := true, occupied;
    if n > 0 {
      PreparedPool(s, k, p, g, list, varyCount, varyMatch, occupied);
      ok, occupied', hosts := AddToGroup(controls, s, k, p, g, n, list, varyCount, varyMatch, occupied);
    }
    placed' := placed + Batch(g, hosts);
    HostsBatch(placed, g, hosts);
    CreatesBatch(k, base, placed, g, hosts);
    if ok {
      FilledStep(s, k, p, order, i, placed, hosts);
    } else {
      FilledPartly(s, k, p, order, i, placed, hosts);
    }
  }

  lemma CreatesBatch(k: nat, base: seq<Op>, placed: seq<Placed>, g: string, hosts: seq<string>)
    ensures base + Creates(k, placed + Batch(g, hosts)) == base + Creates(k, placed) + CreatesIn(k, g, hosts)
  {
    assert Creates(k, placed + Batch(g, hosts)) == Creates(k, placed) + CreatesIn(k, g, hosts);
  }

  /** Fill the groups one after the other. */
  method FillGroups(controls: Controls, s: State, k: nat, p: Policy, found: map<string, int>, order: seq<string>,
                    matches: Lists, varyCount: Counts, varyMatch: Counts)
    returns (ok: bool, ghost placed: seq<Placed>)
    requires IsOrder(p, order)
    requires forall g :: g in p.desired ==> Count(found, g) == |Found(s, k, p, g)|
    requires forall g :: g in p.desired && Missing(s, k, p, g) > 0 ==>
               Prepared(s, k, p, g, ListOf(matches, g), Inner(varyCount, g), Inner(varyMatch, g))
    modifies controls
    ensures controls.ops == old(controls.ops) + Creates(k, placed)
    ensures controls.updated == (old(controls.updated) || |placed| > 0)
    ensures Asked(controls.answers, old(controls.asked), controls.asked, ok)
    ensures if ok then Filled(s, k, p, order, |order|, placed) else Partly(s, k, p, placed)
  {
    var occupied := Occupied(s, k, p);
    placed := [];
    for i := 0 to |order|
      invariant controls.ops == old(controls.ops) + Creates(k, placed)
      invariant controls.updated == (old(controls.updated) || |placed| > 0)
      invariant Asked(controls.answers, old(controls.asked), controls.asked, true)
      invariant occupied == Occupied(s, k, p) + PlacedHosts(placed)
      invariant Filled(s, k, p, order, i, placed)
    {
      var g := order[i];
      ok, occupied, placed :=
        FillGroup(controls, s, k, p, found, order, i, ListOf(matches, g), Inner(varyCount, g),
                  Inner(varyMatch, g), occupied, placed, old(controls.ops));
      if !ok {
        return;
      }
    }
    ok := true;
  }

  /** Least of the replicas that fit no group. */
  ghost predicate FirstMisfit(s: State, k: nat, p: Policy, r: nat) {
    r in Undesired(s, k, p) && forall x :: x in Undesired(s, k, p) ==> r <= x
  }

  lemma MatchesPrepared(s: State, k: nat, p: Policy, g: string, found: map<string, int>, varyCount: Counts,
                        matches: Lists, varyMatch: Counts)
    requires GroupsCounted(s, k, p, found, varyCount)
    requires g in p.desired && Missing(s, k, p, g) > 0
    requires Open(p, found, g) ==>
               Listed(s, p, g, Occupied(s, k, p), {}, ListOf(matches, g), Inner(varyMatch, g).Keys)
    ensures Prepared(s, k, p, g, ListOf(matches, g), Inner(varyCount, g), Inner(varyMatch, g))
  {
  }

  /** One pass over one shard. It deletes one misfit, or else it places replicas; never both. */
  method Reconcile(controls: Controls, s: State, shard: Shard)
    returns (ok: bool, ghost p: Policy, ghost placed: seq<Placed>)
    modifies controls
    ensures !Clash(Decls(shard.tags.Entries())) ==> Reads(shard.tags.Entries(), s.hosts, p)
    ensures Asked(controls.answers, old(controls.asked), controls.asked, ok)
    ensures controls.updated == (old(controls.updated) || controls.ops != old(controls.ops))
    ensures Undesired(s, shard.id, p) != {} ==>
              placed == [] &&
              if ok then exists r :: FirstMisfit(s, shard.id, p, r) && controls.ops == old(controls.ops) + [Delete(r)]
              else controls.ops == old(controls.ops)
    ensures Undesired(s, shard.id, p) == {} ==>
              controls.ops == old(controls.ops) + Creates(shard.id, placed) && Sound(s, shard.id, p, placed)
    ensures PlainVary(p) ==>
              forall i :: 0 <= i < |placed| ==> placed[i].host in Eligible(s, shard.id, p, placed[i].group)
    ensures PlainVary(p) && ok && Undesired(s, shard.id, p) == {} ==>
              Maximal(s, shard.id, p, placed) && (MEMBER in p.desired ==> MembersDone(s, shard.id, p, placed))
  {
    var k := shard.id;
    var policy := ReadPolicy(shard.tags.Entries(), s.hosts);
    p, placed := policy, [];
    var found, varyCount, undesired, occupied := CountReplicas(s, k, policy);
    if undesired != [] {
      ok := controls.Propose(Delete(undesired[0]));
      assert FirstMisfit(s, k, p, undesired[0]);
      return;
    }
    assert Undesired(s, k, p) == {} by {
      assert forall r :: r in Undesired(s, k, p) ==> r in undesired;
    }
    var matches, varyMatch := FindMatches(s, policy, found, occupied);
    forall g | g in p.desired && Missing(s, k, p, g) > 0
      ensures Prepared(s, k, p, g, ListOf(matches, g), Inner(varyCount, g), Inner(varyMatch, g))
    {
      MatchesPrepared(s, k, p, g, found, varyCount, matches, varyMatch);
    }
    var order := OrderGroups(policy.desired);
    ok, placed := FillGroups(controls, s, k, policy, found, order, matches, varyCount, varyMatch);
    if ok && PlainVary(p) {
      FilledAll(s, k, p, order, placed);
    }
  }
}
