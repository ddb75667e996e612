/**
 What the default shard controller should do for one shard: which replicas fit the placement policy,
 how many are missing, and which hosts may take them. These are the reference definitions that the
 controller's pass is held against.
 */
module Placement {
  import opened Numerals
  import opened Registry
  import opened TagText

  const MEMBER := "member"
  const COVER := "cover"

  /** A shard's policy. The tag map holds one vary tag at most, and its whole value is one key. */
  datatype Policy = Policy(desired: map<string, int>, filters: map<string, seq<string>>, vary: Option<string>)

  function FilterOf(p: Policy, g: string): seq<string> {
    if g in p.filters then p.filters[g] else []
  }

  function TagsOn(s: State, host: string): map<string, string> {
    if host in s.hosts then s.hosts[host].tags.Entries() else map[]
  }

  /** The host satisfies the group's filter and carries the vary key. */
  predicate InGroup(p: Policy, tags: map<string, string>, g: string) {
    && g in p.desired
    && MatchFilter(tags, FilterOf(p, g))
    && (p.vary.Some? ==> p.vary.value in tags)
  }

  predicate Belongs(p: Policy, tags: map<string, string>) {
    exists g :: g in p.desired && InGroup(p, tags, g)
  }

  function Found(s: State, k: nat, p: Policy, g: string): set<nat> {
    set r | r in s.replicas && s.replicas[r].shardId == k && InGroup(p, TagsOn(s, s.replicas[r].hostId), g)
  }

  function Undesired(s: State, k: nat, p: Policy): set<nat> {
    set r | r in s.replicas && s.replicas[r].shardId == k && !Belongs(p, TagsOn(s, s.replicas[r].hostId))
  }

  /** Hosts of the replicas that fit. */
  function Occupied(s: State, k: nat, p: Policy): set<string> {
    set r | r in s.replicas && s.replicas[r].shardId == k && Belongs(p, TagsOn(s, s.replicas[r].hostId)) ::
      s.replicas[r].hostId
  }

  function Missing(s: State, k: nat, p: Policy, g: string): nat {
    if g in p.desired && |Found(s, k, p, g)| < p.desired[g] then p.desired[g] - |Found(s, k, p, g)| else 0
  }

  /** Stored hosts that no fitting replica occupies and that satisfy the group's filter. */
  function Candidates(s: State, k: nat, p: Policy, g: string): set<string> {
    set h | h in s.hosts && h !in Occupied(s, k, p) && MatchFilter(TagsOn(s, h), FilterOf(p, g))
  }

  /******* Vary *******/

  /** Key and value of a host under the vary key; a host without the key has the empty value. */
  function VaryTag(key: string, tags: map<string, string>): string {
    FormatTag(key, if key in tags then tags[key] else "")
  }

  /** The vary values already present in the group. */
  function VaryTags(s: State, k: nat, p: Policy, g: string): set<string> {
    if p.vary.None? then {}
    else set r | r in Found(s, k, p, g) :: VaryTag(p.vary.value, TagsOn(s, s.replicas[r].hostId))
  }

  /** A non-empty vary key that does not start with an equals sign survives being parsed back. */
  predicate PlainVary(p: Policy) {
    p.vary.Some? ==> p.vary.value != "" && p.vary.value[0] != '='
  }

  /** A group that already has two vary values, or one that no candidate has, gets nothing. */
  predicate Blocked(s: State, k: nat, p: Policy, g: string) {
    && p.vary.Some?
    && exists t :: t in VaryTags(s, k, p, g) &&
         (VaryTags(s, k, p, g) != {t} ||
          forall h :: h in Candidates(s, k, p, g) ==> VaryTag(p.vary.value, TagsOn(s, h)) != t)
  }

  /** The hosts a pass may really use: members ignore the vary value they already have, other
      groups are confined to it. */
  function Eligible(s: State, k: nat, p: Policy, g: string): set<string> {
    if Blocked(s, k, p, g) then {}
    else set h | h in Candidates(s, k, p, g) &&
                 (g == MEMBER || forall t :: t in VaryTags(s, k, p, g) ==> MatchFilter(TagsOn(s, h), [t]))
  }

  /******* Passes *******/

  datatype Op = Create(host: string, shard: nat, isNonVoting: bool) | Delete(replica: nat)

  /** A host chosen for a group. */
  datatype Placed = Placed(host: string, group: string)

  function Creates(k: nat, placed: seq<Placed>): seq<Op> {
    seq(|placed|, i requires 0 <= i < |placed| =>
      Create(placed[i].host, k, placed[i].group != MEMBER))
  }

  function PlacedHosts(placed: seq<Placed>): set<string> {
    set i | 0 <= i < |placed| :: placed[i].host
  }

  function CountOf(placed: seq<Placed>, g: string): nat {
    if placed == [] then 0
    else CountOf(placed[..|placed| - 1], g) + if placed[|placed| - 1].group == g then 1 else 0
  }

  /** Creates go to distinct candidate hosts, never beyond what a group misses, members first. */
  ghost predicate Sound(s: State, k: nat, p: Policy, placed: seq<Placed>) {
    && (forall i :: 0 <= i < |placed| ==>
          placed[i].group in p.desired && placed[i].host in Candidates(s, k, p, placed[i].group))
    && (forall i, j :: 0 <= i < j < |placed| ==> placed[i].host != placed[j].host)
    && (forall g :: CountOf(placed, g) <= Missing(s, k, p, g))
    && (forall i, j :: 0 <= i < j < |placed| && placed[j].group == MEMBER ==> placed[i].group == MEMBER)
  }

  /** Only eligible hosts are used, and a group that stays short has none left. */
  ghost predicate Maximal(s: State, k: nat, p: Policy, placed: seq<Placed>) {
    && (forall i :: 0 <= i < |placed| ==> placed[i].host in Eligible(s, k, p, placed[i].group))
    && (forall g :: g in p.desired ==>
          CountOf(placed, g) == Missing(s, k, p, g) || Eligible(s, k, p, g) <= PlacedHosts(placed))
  }

  /** Nothing to delete, and no missing replica that could be placed. */
  ghost predicate Settled(s: State, k: nat, p: Policy) {
    && Undesired(s, k, p) == {}
    && forall g :: g in p.desired && Missing(s, k, p, g) > 0 ==> Eligible(s, k, p, g) == {}
  }

  /** What this comes to without a vary key: no replica is out of place, and each group has its number of
      replicas on hosts that its filter admits, or else all such hosts have a replica of the shard. */
  lemma SettledMeans(s: State, k: nat, p: Policy, g: string)
    requires p.vary.None? && Settled(s, k, p) && g in p.desired
    ensures var mine := set r | r in s.replicas && s.replicas[r].shardId == k;
            && (forall r :: r in mine ==>
                  exists x :: x in p.desired && MatchFilter(TagsOn(s, s.replicas[r].hostId), FilterOf(p, x)))
            && var fit := set r | r in mine && MatchFilter(TagsOn(s, s.replicas[r].hostId), FilterOf(p, g));
               && (|| |fit| >= p.desired[g]
                   || forall h :: h in s.hosts && MatchFilter(TagsOn(s, h), FilterOf(p, g)) ==>
                        exists r :: r in mine && s.replicas[r].hostId == h)
  {
    var mine := set r | r in s.replicas && s.replicas[r].shardId == k;
    var fit := set r | r in mine && MatchFilter(TagsOn(s, s.replicas[r].hostId), FilterOf(p, g));
    assert fit == Found(s, k, p, g);
    forall r | r in mine
      ensures exists x :: x in p.desired && MatchFilter(TagsOn(s, s.replicas[r].hostId), FilterOf(p, x))
    {
      assert r !in Undesired(s, k, p);
      var x :| x in p.desired && InGroup(p, TagsOn(s, s.replicas[r].hostId), x);
    }
    if |fit| < p.desired[g] {
      assert VaryTags(s, k, p, g) == {} && !Blocked(s, k, p, g);
      forall h | h in s.hosts && MatchFilter(TagsOn(s, h), FilterOf(p, g))
        ensures exists r :: r in mine && s.replicas[r].hostId == h
      {
        assert h !in Eligible(s, k, p, g);
        assert h in Occupied(s, k, p);
      }
    }
  }

  /** Under a vary key a group other than the members gets replicas only where it has its value already. */
  lemma ReplicasKeepValue(s: State, k: nat, p: Policy, g: string, h: string, r: nat)
    requires p.vary.Some? && PlainVary(p) && Free(p.vary.value, '=')
    requires g != MEMBER && h in Eligible(s, k, p, g) && r in Found(s, k, p, g)
    ensures SameValue(s, p, h, s.replicas[r].hostId)
  {
    var key, host := p.vary.value, s.replicas[r].hostId;
    var t := VaryTag(key, TagsOn(s, host));
    assert t in VaryTags(s, k, p, g);
    assert MatchFilter(TagsOn(s, h), [t]);
    assert MatchTag(TagsOn(s, h), [t][0]);
    FormatParses(key, TagsOn(s, host)[key]);
  }

  lemma FormatParses(k: string, v: string)
    requires k != "" && Free(k, '=')
    ensures ParseTag(FormatTag(k, v)) == (k, v)
  {
    var tag := FormatTag(k, v);
    assert tag[|k|] == '=' && forall i :: 0 <= i < |k| ==> tag[i] == k[i];
    assert IndexOf(tag, '=') == |k|;
    assert tag[..|k|] == k && tag[|k| + 1..] == v;
  }

  /******* One replica more *******/

  /** The vary value that a replica adds to the groups it belongs to. */
  function Marks(p: Policy, tags: map<string, string>): set<string> {
    if p.vary.Some? then {VaryTag(p.vary.value, tags)} else {}
  }

  /** `t` is `s` with one more replica of shard `k`, on `host`. */
  ghost predicate Adds(s: State, t: State, k: nat, r: nat, host: string) {
    && r !in s.replicas && r in t.replicas
    && t.replicas[r].shardId == k && t.replicas[r].hostId == host
    && (forall x :: x in t.replicas <==> x in s.replicas || x == r)
    && (forall x :: x in s.replicas ==>
          t.replicas[x].shardId == s.replicas[x].shardId && t.replicas[x].hostId == s.replicas[x].hostId)
    && (forall h :: TagsOn(t, h) == TagsOn(s, h))
  }

  lemma FoundAdds(s: State, t: State, k: nat, p: Policy, r: nat, host: string, g: string)
    requires Adds(s, t, k, r, host)
    ensures Found(t, k, p, g)
            == if InGroup(p, TagsOn(s, host), g) then Found(s, k, p, g) + {r} else Found(s, k, p, g)
  {
  }

  lemma VaryTagsAdds(s: State, t: State, k: nat, p: Policy, r: nat, host: string, g: string)
    requires Adds(s, t, k, r, host)
    ensures VaryTags(t, k, p, g) == VaryTags(s, k, p, g) +
            if InGroup(p, TagsOn(s, host), g) then Marks(p, TagsOn(s, host)) else {}
  {
    FoundAdds(s, t, k, p, r, host, g);
    if p.vary.Some? {
      forall x | x in VaryTags(s, k, p, g) ensures x in VaryTags(t, k, p, g) {
        var y :| y in Found(s, k, p, g) && VaryTag(p.vary.value, TagsOn(s, s.replicas[y].hostId)) == x;
        assert y in Found(t, k, p, g);
      }
      if InGroup(p, TagsOn(s, host), g) {
        assert r in Found(t, k, p, g);
      }
    }
  }

  lemma UndesiredAdds(s: State, t: State, k: nat, p: Policy, r: nat, host: string)
    requires Adds(s, t, k, r, host)
    ensures Undesired(t, k, p)
            == if Belongs(p, TagsOn(s, host)) then Undesired(s, k, p) else Undesired(s, k, p) + {r}
  {
  }

  lemma OccupiedAdds(s: State, t: State, k: nat, p: Policy, r: nat, host: string)
    requires Adds(s, t, k, r, host)
    ensures Occupied(t, k, p)
            == if Belongs(p, TagsOn(s, host)) then Occupied(s, k, p) + {host} else Occupied(s, k, p)
  {
    forall h | h in Occupied(s, k, p) ensures h in Occupied(t, k, p) {
      var y :| y in s.replicas && s.replicas[y].shardId == k && s.replicas[y].hostId == h
               && Belongs(p, TagsOn(s, h));
      assert y in t.replicas && t.replicas[y].hostId == h;
    }
    if Belongs(p, TagsOn(s, host)) {
      assert t.replicas[r].hostId in Occupied(t, k, p);
    }
  }

  /******* Completing a pass *******/

  /** Sound, and on eligible hosts only. */
  ghost predicate Begun(s: State, k: nat, p: Policy, placed: seq<Placed>) {
    Sound(s, k, p, placed) && forall i :: 0 <= i < |placed| ==> placed[i].host in Eligible(s, k, p, placed[i].group)
  }

  /** The group has all it misses, or all it can get. */
  ghost predicate Served(s: State, k: nat, p: Policy, placed: seq<Placed>, g: string) {
    CountOf(placed, g) == Missing(s, k, p, g) || Eligible(s, k, p, g) <= PlacedHosts(placed)
  }

  /** Members first: nothing but members, or the members are served. */
  ghost predicate Queued(s: State, k: nat, p: Policy, placed: seq<Placed>) {
    (forall i :: 0 <= i < |placed| ==> placed[i].group == MEMBER) || Served(s, k, p, placed, MEMBER)
  }

  lemma CountSnoc(placed: seq<Placed>, x: Placed, g: string)
    ensures CountOf(placed + [x], g) == CountOf(placed, g) + if x.group == g then 1 else 0
  {
    assert (placed + [x])[..|placed|] == placed;
  }

  lemma PlacedSnoc(placed: seq<Placed>, x: Placed)
    ensures PlacedHosts(placed + [x]) == PlacedHosts(placed) + {x.host}
  {
    var more := placed + [x];
    forall h | h in PlacedHosts(placed) ensures h in PlacedHosts(more) {
      var i :| 0 <= i < |placed| && placed[i].host == h;
      assert more[i].host == h;
    }
    assert more[|placed|].host == x.host;
  }

  lemma BegunSnoc(s: State, k: nat, p: Policy, placed: seq<Placed>, g: string, h: string)
    requires Begun(s, k, p, placed) && g in p.desired && CountOf(placed, g) < Missing(s, k, p, g)
    requires h in Eligible(s, k, p, g) && h !in PlacedHosts(placed)
    requires g == MEMBER ==> forall i :: 0 <= i < |placed| ==> placed[i].group == MEMBER
    ensures Begun(s, k, p, placed + [Placed(h, g)])
    ensures forall x :: Served(s, k, p, placed, x) && x != g ==> Served(s, k, p, placed + [Placed(h, g)], x)
  {
    var more := placed + [Placed(h, g)];
    forall x ensures CountOf(more, x) == CountOf(placed, x) + if x == g then 1 else 0 {
      CountSnoc(placed, Placed(h, g), x);
    }
    PlacedSnoc(placed, Placed(h, g));
    forall i | 0 <= i < |placed| ensures placed[i].host != h {
      assert placed[i].host in PlacedHosts(placed);
    }
  }

  lemma QueuedSnoc(s: State, k: nat, p: Policy, placed: seq<Placed>, g: string, h: string)
    requires Begun(s, k, p, placed) && g in p.desired && CountOf(placed, g) < Missing(s, k, p, g)
    requires h in Eligible(s, k, p, g) && h !in PlacedHosts(placed)
    requires Queued(s, k, p, placed) && !Served(s, k, p, placed, g)
    requires g != MEMBER ==> Served(s, k, p, placed, MEMBER)
    ensures Begun(s, k, p, placed + [Placed(h, g)]) && Queued(s, k, p, placed + [Placed(h, g)])
    ensures PlacedHosts(placed + [Placed(h, g)]) == PlacedHosts(placed) + {h}
  {
    BegunSnoc(s, k, p, placed, g, h);
    PlacedSnoc(placed, Placed(h, g));
  }

  /** A pass that has begun can be brought to its end. */
  lemma {:induction false} CompletePass(s: State, k: nat, p: Policy, placed: seq<Placed>) returns (all: seq<Placed>)
    requires Begun(s, k, p, placed) && Queued(s, k, p, placed)
    ensures placed <= all && Sound(s, k, p, all) && Maximal(s, k, p, all)
    decreases s.hosts.Keys - PlacedHosts(placed)
  {
    all := placed;
    if g :| g in p.desired && !Served(s, k, p, placed, g) {
      var first := if Served(s, k, p, placed, MEMBER) then g else MEMBER;
      assert first in p.desired && CountOf(placed, first) < Missing(s, k, p, first);
      var h :| h in Eligible(s, k, p, first) && h !in PlacedHosts(placed);
      QueuedSnoc(s, k, p, placed, first, h);
      assert h in s.hosts.Keys - PlacedHosts(placed);
      all := CompletePass(s, k, p, placed + [Placed(h, first)]);
    }
  }

  /******* Members and the vary key *******/

  /** The hosts have one value under the vary key. */
  predicate SameValue(s: State, p: Policy, h: string, h': string) {
    && p.vary.Some?
    && p.vary.value in TagsOn(s, h) && p.vary.value in TagsOn(s, h')
    && TagsOn(s, h)[p.vary.value] == TagsOn(s, h')[p.vary.value]
  }

  /** The host has the vary value of a member that is already there. */
  ghost predicate Repeats(s: State, k: nat, p: Policy, h: string) {
    exists r :: r in Found(s, k, p, MEMBER) && SameValue(s, p, h, s.replicas[r].hostId)
  }

  /** A pass puts a member where a member has the same vary value, an earlier one or one of its own. */
  ghost predicate Crowds(s: State, k: nat, p: Policy, placed: seq<Placed>) {
    || (exists i :: 0 <= i < |placed| && placed[i].group == MEMBER && Repeats(s, k, p, placed[i].host))
    || (exists i, j :: 0 <= i < j < |placed| && placed[i].group == MEMBER && placed[j].group == MEMBER
          && SameValue(s, p, placed[i].host, placed[j].host))
  }

  /** Two hosts that may both get a member have one vary value. */
  ghost predicate Mates(s: State, k: nat, p: Policy, h: string, h': string) {
    && h in Eligible(s, k, p, MEMBER) && h' in Eligible(s, k, p, MEMBER)
    && h != h' && SameValue(s, p, h, h')
  }

  /** What could go wrong: one member is missing and may go where its vary value is taken, or two are
      and may go to two hosts with one value. */
  ghost predicate Crowdable(s: State, k: nat, p: Policy) {
    || (Missing(s, k, p, MEMBER) >= 1 && exists h :: h in Eligible(s, k, p, MEMBER) && Repeats(s, k, p, h))
    || (Missing(s, k, p, MEMBER) >= 2 && exists h, h' :: Mates(s, k, p, h, h'))
  }

  /** The members that a pass creates may violate the vary policy in exactly these two cases. */
  lemma MembersCrowdExactly(s: State, k: nat, p: Policy)
    ensures (exists placed :: Sound(s, k, p, placed) && Maximal(s, k, p, placed) && Crowds(s, k, p, placed))
            <==> Crowdable(s, k, p)
  {
    if placed :| Sound(s, k, p, placed) && Maximal(s, k, p, placed) && Crowds(s, k, p, placed) {
      CrowdsCrowdable(s, k, p, placed);
    }
    if Crowdable(s, k, p) {
      var placed := Crowded(s, k, p);
      assert Sound(s, k, p, placed) && Maximal(s, k, p, placed) && Crowds(s, k, p, placed);
    }
  }

  lemma {:induction false} CountAt(placed: seq<Placed>, i: nat)
    requires i < |placed|
    ensures CountOf(placed, placed[i].group) > 0
  {
    if i < |placed| - 1 {
      CountAt(placed[..|placed| - 1], i);
    }
  }

  lemma {:induction false} CountTwo(placed: seq<Placed>, i: nat, j: nat)
    requires i < j < |placed| && placed[i].group == placed[j].group
    ensures CountOf(placed, placed[i].group) >= 2
  {
    if j < |placed| - 1 {
      CountTwo(placed[..|placed| - 1], i, j);
    } else {
      CountAt(placed[..|placed| - 1], i);
    }
  }

  lemma CrowdsCrowdable(s: State, k: nat, p: Policy, placed: seq<Placed>)
    requires Sound(s, k, p, placed) && Maximal(s, k, p, placed) && Crowds(s, k, p, placed)
    ensures Crowdable(s, k, p)
  {
    if i :| 0 <= i < |placed| && placed[i].group == MEMBER && Repeats(s, k, p, placed[i].host) {
      CountAt(placed, i);
    } else {
      assert !exists i :: 0 <= i < |placed| && placed[i].group == MEMBER && Repeats(s, k, p, placed[i].host);
      var i, j :| 0 <= i < j < |placed| && placed[i].group == MEMBER && placed[j].group == MEMBER
                  && SameValue(s, p, placed[i].host, placed[j].host);
      CountTwo(placed, i, j);
      assert Mates(s, k, p, placed[i].host, placed[j].host);
    }
  }

  lemma StartOne(s: State, k: nat, p: Policy, h: string)
    requires Missing(s, k, p, MEMBER) >= 1 && h in Eligible(s, k, p, MEMBER)
    ensures Begun(s, k, p, [Placed(h, MEMBER)]) && Queued(s, k, p, [Placed(h, MEMBER)])
    ensures CountOf([Placed(h, MEMBER)], MEMBER) == 1 && PlacedHosts([Placed(h, MEMBER)]) == {h}
  {
    assert [] + [Placed(h, MEMBER)] == [Placed(h, MEMBER)];
    assert PlacedHosts([]) == {};
    BegunSnoc(s, k, p, [], MEMBER, h);
    CountSnoc([], Placed(h, MEMBER), MEMBER);
    PlacedSnoc([], Placed(h, MEMBER));
  }

  lemma StartTwo(s: State, k: nat, p: Policy, h: string, h': string)
    requires Missing(s, k, p, MEMBER) >= 2 && Mates(s, k, p, h, h')
    ensures Begun(s, k, p, [Placed(h, MEMBER), Placed(h', MEMBER)])
    ensures Queued(s, k, p, [Placed(h, MEMBER), Placed(h', MEMBER)])
  {
    StartOne(s, k, p, h);
    BegunSnoc(s, k, p, [Placed(h, MEMBER)], MEMBER, h');
    assert [Placed(h, MEMBER)] + [Placed(h', MEMBER)] == [Placed(h, MEMBER), Placed(h', MEMBER)];
  }

  lemma Crowded(s: State, k: nat, p: Policy) returns (placed: seq<Placed>)
    requires Crowdable(s, k, p)
    ensures Sound(s, k, p, placed) && Maximal(s, k, p, placed) && Crowds(s, k, p, placed)
  {
    if h :| Missing(s, k, p, MEMBER) >= 1 && h in Eligible(s, k, p, MEMBER) && Repeats(s, k, p, h) {
      StartOne(s, k, p, h);
      placed := CompletePass(s, k, p, [Placed(h, MEMBER)]);
      assert placed[0] == Placed(h, MEMBER);
    } else {
      var h, h' :| Mates(s, k, p, h, h');
      StartTwo(s, k, p, h, h');
      placed := CompletePass(s, k, p, [Placed(h, MEMBER), Placed(h', MEMBER)]);
      assert placed[0] == Placed(h, MEMBER) && placed[1] == Placed(h', MEMBER);
    }
  }

  lemma {:induction false} CountAll(placed: seq<Placed>, g: string)
    requires forall i :: 0 <= i < |placed| ==> placed[i].group == g
    ensures CountOf(placed, g) == |placed|
  {
    if placed != [] {
      CountAll(placed[..|placed| - 1], g);
    }
  }
}
