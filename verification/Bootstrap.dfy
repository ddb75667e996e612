/**
 Agreement on the members of the prime shard. Every agent asks every peer who it is, one call at a
 time, while the others do the same; it then either finds all peers numbered, or finds none numbered
 and numbers them by their place in the peer list, or copies the list of a numbered peer. The agents
 are the peers, in the order of the list they share.
 */
module Bootstrap {
  import opened Chains

  /** What remains to be done: calls to the peers from `next` on, a copy from `peer`, the return. */
  datatype Phase = Asking(next: nat) | Copying(peer: nat) | Returning | Done | Failed

  /** `waiting` holds the peers found without a number, `published` what the agent tells others. */
  datatype Agent = Agent(
    up: bool, number: nat, published: map<nat, string>,
    phase: Phase, members: map<nat, string>, waiting: map<nat, string>)

  type Cluster = seq<Agent>

  const FRESH := Agent(false, 0, map[], Asking(0), map[], map[])

  function HostAt(hosts: seq<string>, number: nat): string {
    if 1 <= number <= |hosts| then hosts[number - 1] else ""
  }

  /** Peers are numbered from one, in the order of the list. */
  function Full(hosts: seq<string>): map<nat, string> {
    map i: nat | 1 <= i <= |hosts| :: HostAt(hosts, i)
  }

  ghost predicate DistinctHosts(hosts: seq<string>) {
    forall i, j :: 0 <= i < j < |hosts| ==> hosts[i] != hosts[j]
  }

  /** `m` says nothing but what `full` says. */
  ghost predicate Sub(m: map<nat, string>, full: map<nat, string>) {
    forall k :: k in m ==> k in full && m[k] == full[k]
  }

  /******* Steps *******/

  datatype Step = Rise | Ask | Fail | Retry | Decide | Copy(taken: set<nat>) | Publish

  function Round(a: Agent): Agent {
    a.(phase := Asking(0), members := map[], waiting := map[])
  }

  /** Note what the peer's answer says; a peer without a host id yet says nothing. */
  function Hear(a: Agent, peer: nat, p: Agent, host: string): Agent {
    var b := a.(phase := Asking(peer + 1));
    if !p.up then b
    else if p.number == 0 then b.(waiting := b.waiting[peer := host])
    else b.(members := b.members[p.number := host])
  }

  /** The first peer other than `me` that is not waiting, or `n`. */
  function Source(waiting: map<nat, string>, me: nat, n: nat, i: nat): (p: nat)
    requires i <= n
    ensures i <= p <= n
    ensures p < n ==> p != me && p !in waiting
    ensures forall q :: i <= q < p ==> q == me || q in waiting
    decreases n - i
  {
    if i == n then n
    else if i != me && i !in waiting then i
    else Source(waiting, me, n, i + 1)
  }

  /** Number the waiting peers by their places. */
  function Numbered(waiting: map<nat, string>, n: nat): map<nat, string> {
    if n == 0 then map[]
    else
      var rest := Numbered(waiting, n - 1);
      if n - 1 in waiting then rest[n := waiting[n - 1]] else rest
  }

  function Decision(a: Agent, me: nat, n: nat): Agent {
    if |a.members| == n then a.(phase := Returning)
    else if |a.waiting| == n then
      a.(members := a.members + Numbered(a.waiting, n), number := me + 1, phase := Returning)
    else if |a.members| + |a.waiting| == n then
      var p := Source(a.waiting, me, n, 0);
      if p < n then a.(phase := Copying(p)) else Round(a)
    else Round(a)
  }

  function Restrict(m: map<nat, string>, keys: set<nat>): map<nat, string> {
    map k | k in m && k in keys :: m[k]
  }

  /** The entries that a copy may take: the walk over the map, in whatever order, ends at the entry
      for the agent's own host. */
  ghost predicate Takes(m: map<nat, string>, host: string, taken: set<nat>) {
    && taken <= m.Keys
    && (forall k, l :: k in taken && l in taken && m[k] == host && m[l] == host ==> k == l)
    && ((forall k :: k in taken ==> m[k] != host) ==> taken == m.Keys)
  }

  /** The number found for the agent's own host, or the one it had. */
  ghost function NumberFrom(m: map<nat, string>, host: string, taken: set<nat>, number: nat): (r: nat)
    ensures r == number || (r in taken && r in m && m[r] == host)
  {
    if k :| k in taken && k in m && m[k] == host then k else number
  }

  ghost function Copied(a: Agent, p: Agent, host: string, taken: set<nat>, n: nat): Agent {
    var b := a.(members := a.members + Restrict(p.published, taken),
                number := NumberFrom(p.published, host, taken, a.number));
    if b.number > 0 && |b.members| == n then b.(phase := Returning) else Round(b)
  }

  ghost predicate Moves(c: Cluster, hosts: seq<string>, me: nat, step: Step, b: Agent)
    requires |c| == |hosts| && me < |c|
  {
    var a, n := c[me], |c|;
    match step
    case Rise => b == a.(up := true)
    case Ask =>
      && a.phase.Asking? && a.phase.next < n
      && b == Hear(a, a.phase.next, c[a.phase.next], hosts[a.phase.next])
    case Fail =>
      && (a.phase.Asking? || a.phase.Copying?)
      && b == a.(phase := Failed, published := a.members)
    case Retry => a.phase.Failed? && b == Round(a.(number := 0))
    case Decide => a.phase == Asking(n) && b == Decision(a, me, n)
    case Copy(taken) =>
      && a.phase.Copying? && a.phase.peer < n
      && Takes(c[a.phase.peer].published, hosts[me], taken)
      && b == Copied(a, c[a.phase.peer], hosts[me], taken, n)
    case Publish => a.phase.Returning? && b == a.(phase := Done, published := a.members)
  }

  ghost predicate Stepped(c: Cluster, hosts: seq<string>, me: nat, step: Step, d: Cluster)
    requires |c| == |hosts|
  {
    me < |c| && exists b :: Moves(c, hosts, me, step, b) && d == c[me := b]
  }

  /** Any interleaving of the agents' steps. */
  ghost predicate IsBoot(hosts: seq<string>, who: seq<nat>, steps: seq<Step>, cs: seq<Cluster>) {
    && |who| == |steps| && |cs| == |steps| + 1
    && cs[0] == seq(|hosts|, i => FRESH)
    && (forall i :: 0 <= i < |cs| ==> |cs[i]| == |hosts|)
    && (forall i :: 0 <= i < |steps| ==> Stepped(cs[i], hosts, who[i], steps[i], cs[i + 1]))
  }

  /******* Safety *******/

  /** The agent's own number, what it has heard and what it tells others are all right, if partial. */
  ghost predicate Right(a: Agent, hosts: seq<string>, me: nat) {
    && (a.number == 0 || a.number == me + 1) && (me + 1 in a.members ==> a.number == me + 1)
    && Sub(a.members, Full(hosts)) && Sub(a.published, Full(hosts))
    && (forall i :: i in a.waiting ==> i < |hosts| && a.waiting[i] == hosts[i])
    && (a.phase.Returning? ==> a.members == Full(hosts) && a.number == me + 1)
    && (a.phase.Done? ==> a.published == Full(hosts) && a.number == me + 1)
  }

  ghost predicate AllRight(c: Cluster, hosts: seq<string>) {
    |c| == |hosts| && forall i :: 0 <= i < |c| ==> Right(c[i], hosts, i)
  }

  lemma {:induction false} Interval(s: set<nat>, lo: nat, n: nat)
    requires forall x :: x in s ==> lo <= x < lo + n
    ensures |s| <= n
    ensures |s| == n <==> forall x :: lo <= x < lo + n ==> x in s
  {
    if n > 0 {
      Interval(s - {lo + n - 1}, lo, n - 1);
    }
  }

  /** As many entries as peers means all of them. */
  lemma SubFull(m: map<nat, string>, hosts: seq<string>)
    requires Sub(m, Full(hosts)) && |m| == |hosts|
    ensures m == Full(hosts)
  {
    assert |m.Keys| == |m|;
    Interval(m.Keys, 1, |hosts|);
  }

  lemma {:induction false} NumberedAt(waiting: map<nat, string>, n: nat, k: nat)
    ensures k in Numbered(waiting, n) <==> 1 <= k <= n && k - 1 in waiting
    ensures k in Numbered(waiting, n) ==> Numbered(waiting, n)[k] == waiting[k - 1]
  {
    if n > 0 {
      NumberedAt(waiting, n - 1, k);
    }
  }

  lemma NumberedFull(a: Agent, hosts: seq<string>, me: nat)
    requires Right(a, hosts, me) && |a.waiting| == |hosts|
    ensures a.members + Numbered(a.waiting, |hosts|) == Full(hosts)
  {
    AllWaiting(a, hosts, me);
    NumberedAll(a.waiting, hosts);
  }

  lemma AllWaiting(a: Agent, hosts: seq<string>, me: nat)
    requires Right(a, hosts, me) && |a.waiting| == |hosts|
    ensures forall i: nat :: i < |hosts| ==> i in a.waiting && a.waiting[i] == hosts[i]
  {
    assert |a.waiting.Keys| == |a.waiting|;
    Interval(a.waiting.Keys, 0, |hosts|);
  }

  lemma NumberedAll(waiting: map<nat, string>, hosts: seq<string>)
    requires forall i: nat :: i < |hosts| ==> i in waiting && waiting[i] == hosts[i]
    ensures Numbered(waiting, |hosts|) == Full(hosts)
  {
    forall k: nat ensures k in Numbered(waiting, |hosts|) <==> k in Full(hosts)
      ensures k in Full(hosts) ==> Numbered(waiting, |hosts|)[k] == HostAt(hosts, k)
    {
      NumberedAt(waiting, |hosts|, k);
      if 1 <= k <= |hosts| {
        assert waiting[k - 1] == hosts[k - 1];
      }
    }
  }

  lemma HearRight(c: Cluster, hosts: seq<string>, me: nat, p: nat)
    requires AllRight(c, hosts) && me < |c| && p < |c| && c[me].phase == Asking(p)
    ensures Right(Hear(c[me], p, c[p], hosts[p]), hosts, me)
  {
    assert Right(c[p], hosts, p) && Right(c[me], hosts, me);
  }

  lemma DecisionRight(c: Cluster, hosts: seq<string>, me: nat)
    requires AllRight(c, hosts) && me < |c| && c[me].phase == Asking(|c|)
    ensures Right(Decision(c[me], me, |c|), hosts, me)
  {
    var a := c[me];
    assert Right(a, hosts, me);
    if |a.members| == |c| {
      SubFull(a.members, hosts);
      assert me + 1 in Full(hosts);
    } else if |a.waiting| == |c| {
      NumberedFull(a, hosts, me);
    }
  }

  lemma CopiedRight(c: Cluster, hosts: seq<string>, me: nat, taken: set<nat>)
    requires AllRight(c, hosts) && DistinctHosts(hosts) && me < |c|
    requires c[me].phase.Copying? && c[me].phase.peer < |c|
    requires Takes(c[c[me].phase.peer].published, hosts[me], taken)
    ensures Right(Copied(c[me], c[c[me].phase.peer], hosts[me], taken, |c|), hosts, me)
  {
    var a, p := c[me], c[c[me].phase.peer];
    assert Right(a, hosts, me) && Right(p, hosts, a.phase.peer);
    var b := a.(members := a.members + Restrict(p.published, taken),
                number := NumberFrom(p.published, hosts[me], taken, a.number));
    OwnNumber(p.published, hosts, me, taken, a.number);
    assert Sub(b.members, Full(hosts));
    if |b.members| == |c| {
      SubFull(b.members, hosts);
    }
  }

  /** The only entry for the agent's own host is the one under its own number. */
  lemma OwnNumber(m: map<nat, string>, hosts: seq<string>, me: nat, taken: set<nat>, number: nat)
    requires Sub(m, Full(hosts)) && DistinctHosts(hosts) && me < |hosts|
    ensures NumberFrom(m, hosts[me], taken, number) == if me + 1 in taken && me + 1 in m then me + 1 else number
  {
    forall k | k in m && m[k] == hosts[me] ensures k == me + 1 {
      assert hosts[k - 1] == hosts[me];
    }
  }

  lemma MoveRight(c: Cluster, hosts: seq<string>, me: nat, step: Step, b: Agent)
    requires AllRight(c, hosts) && DistinctHosts(hosts) && me < |c| && Moves(c, hosts, me, step, b)
    ensures Right(b, hosts, me)
  {
    assert Right(c[me], hosts, me);
    match step
    case Ask => HearRight(c, hosts, me, c[me].phase.next);
    case Decide => DecisionRight(c, hosts, me);
    case Copy(taken) => CopiedRight(c, hosts, me, taken);
    case _ =>
  }

  /** In every state of every interleaving, whoever has finished has the full list, with its own
      number in it, and nobody ever tells anything else. */
  lemma {:induction false} Agreement(hosts: seq<string>, who: seq<nat>, steps: seq<Step>, cs: seq<Cluster>, i: nat)
    requires IsBoot(hosts, who, steps, cs) && DistinctHosts(hosts) && i <= |steps|
    ensures AllRight(cs[i], hosts)
    ensures forall j :: 0 <= j < |hosts| && cs[i][j].phase.Done? ==>
              cs[i][j].published == Full(hosts) && cs[i][j].number == j + 1
  {
    if i > 0 {
      Agreement(hosts, who, steps, cs, i - 1);
      assert Stepped(cs[i - 1], hosts, who[i - 1], steps[i - 1], cs[i - 1 + 1]);
      var b :| Moves(cs[i - 1], hosts, who[i - 1], steps[i - 1], b) && cs[i] == cs[i - 1][who[i - 1] := b];
      MoveRight(cs[i - 1], hosts, who[i - 1], steps[i - 1], b);
    }
  }

  /******* One round, nobody else moving *******/

  /** The agent after its first `i` calls. */
  function Asked(c: Cluster, hosts: seq<string>, me: nat, i: nat): Agent
    requires |c| == |hosts| && me < |c| && i <= |c|
  {
    if i == 0 then Round(c[me])
    else
      var a := Asked(c, hosts, me, i - 1);
      Hear(a, i - 1, if i - 1 == me then a else c[i - 1], hosts[i - 1])
  }

  ghost predicate AllUp(c: Cluster) {
    forall i :: 0 <= i < |c| ==> c[i].up
  }

  /** The peers among the first `i` that are up and numbered, under their numbers. */
  function NumberedAmong(c: Cluster, hosts: seq<string>, i: nat): map<nat, string>
    requires |c| == |hosts| && i <= |c|
  {
    if i == 0 then map[]
    else if c[i - 1].up && c[i - 1].number > 0 then NumberedAmong(c, hosts, i - 1)[c[i - 1].number := hosts[i - 1]]
    else NumberedAmong(c, hosts, i - 1)
  }

  /** Those that are up and not numbered, under their places. */
  function UnnumberedAmong(c: Cluster, hosts: seq<string>, i: nat): map<nat, string>
    requires |c| == |hosts| && i <= |c|
  {
    if i == 0 then map[]
    else if c[i - 1].up && c[i - 1].number == 0 then UnnumberedAmong(c, hosts, i - 1)[i - 1 := hosts[i - 1]]
    else UnnumberedAmong(c, hosts, i - 1)
  }

  lemma {:induction false} AskedKnows(c: Cluster, hosts: seq<string>, me: nat, i: nat)
    requires |c| == |hosts| && me < |c| && i <= |c|
    ensures Asked(c, hosts, me, i)
            == c[me].(phase := Asking(i), members := NumberedAmong(c, hosts, i), waiting := UnnumberedAmong(c, hosts, i))
  {
    if i > 0 {
      AskedKnows(c, hosts, me, i - 1);
    }
  }

  /** Whoever has a number has that of its place. */
  ghost predicate Placed(c: Cluster) {
    forall i :: 0 <= i < |c| ==> c[i].number == 0 || c[i].number == i + 1
  }

  lemma RightPlaced(c: Cluster, hosts: seq<string>)
    requires AllRight(c, hosts)
    ensures Placed(c)
  {
    forall i | 0 <= i < |c| ensures c[i].number == 0 || c[i].number == i + 1 {
      assert Right(c[i], hosts, i);
    }
  }

  /** The peer with this number, if it has got it, is among the first `i`. */
  predicate Numbers(c: Cluster, i: nat, k: nat) {
    1 <= k <= i <= |c| && c[k - 1].up && c[k - 1].number > 0
  }

  lemma {:induction false} AmongAt(c: Cluster, hosts: seq<string>, i: nat, k: nat)
    requires |c| == |hosts| && Placed(c) && i <= |c|
    ensures k in NumberedAmong(c, hosts, i) <==> Numbers(c, i, k)
    ensures k in NumberedAmong(c, hosts, i) ==> NumberedAmong(c, hosts, i)[k] == HostAt(hosts, k)
    ensures k in UnnumberedAmong(c, hosts, i) <==> k < i && c[k].up && c[k].number == 0
    ensures k in UnnumberedAmong(c, hosts, i) ==> UnnumberedAmong(c, hosts, i)[k] == hosts[k]
  {
    if i > 0 {
      AmongAt(c, hosts, i - 1, k);
    }
  }

  ghost predicate AllNumbered(c: Cluster, i: nat) {
    i <= |c| && forall j :: 0 <= j < i ==> c[j].up && c[j].number > 0
  }

  ghost predicate NoneNumbered(c: Cluster, i: nat) {
    i <= |c| && forall j :: 0 <= j < i ==> c[j].up && c[j].number == 0
  }

  lemma SoFar(c: Cluster, i: nat)
    requires 0 < i <= |c|
    ensures AllNumbered(c, i) <==> AllNumbered(c, i - 1) && c[i - 1].up && c[i - 1].number > 0
    ensures NoneNumbered(c, i) <==> NoneNumbered(c, i - 1) && c[i - 1].up && c[i - 1].number == 0
    ensures AllUp(c[..i]) <==> AllUp(c[..i - 1]) && c[i - 1].up
  {
  }

  /** A peer is on one of the two lists exactly if it is up. */
  lemma {:induction false} AmongSizes(c: Cluster, hosts: seq<string>, i: nat)
    requires |c| == |hosts| && Placed(c) && i <= |c|
    ensures |NumberedAmong(c, hosts, i)| + |UnnumberedAmong(c, hosts, i)| <= i
    ensures |NumberedAmong(c, hosts, i)| + |UnnumberedAmong(c, hosts, i)| == i <==> AllUp(c[..i])
    ensures |NumberedAmong(c, hosts, i)| == i <==> AllNumbered(c, i)
    ensures |UnnumberedAmong(c, hosts, i)| == i <==> NoneNumbered(c, i)
  {
    if i > 0 {
      AmongSizes(c, hosts, i - 1);
      AmongAt(c, hosts, i - 1, i);
      AmongAt(c, hosts, i - 1, i - 1);
      SoFar(c, i);
    }
  }

  /** All peers are up and none has a number: whoever goes first numbers them by their places, itself
      included, and returns. */
  lemma FirstRound(c: Cluster, hosts: seq<string>, me: nat)
    requires AllRight(c, hosts) && me < |c| && NoneNumbered(c, |c|)
    ensures var a := Decision(Asked(c, hosts, me, |c|), me, |c|);
            a.phase.Returning? && a.members == Full(hosts) && a.number == me + 1
  {
    RightPlaced(c, hosts);
    AskedKnows(c, hosts, me, |c|);
    AmongSizes(c, hosts, |c|);
    forall k: nat ensures k !in NumberedAmong(c, hosts, |c|)
      ensures k < |c| ==> k in UnnumberedAmong(c, hosts, |c|) && UnnumberedAmong(c, hosts, |c|)[k] == hosts[k]
    {
      AmongAt(c, hosts, |c|, k);
    }
    assert NumberedAmong(c, hosts, |c|) == map[];
    NumberedAll(UnnumberedAmong(c, hosts, |c|), hosts);
  }

  /** All peers are up and numbered: an agent returns with what it has heard. */
  lemma NumberedRound(c: Cluster, hosts: seq<string>, me: nat)
    requires AllRight(c, hosts) && me < |c| && AllNumbered(c, |c|)
    ensures var a := Decision(Asked(c, hosts, me, |c|), me, |c|);
            a.phase.Returning? && a.members == Full(hosts) && a.number == me + 1
  {
    RightPlaced(c, hosts);
    AskedKnows(c, hosts, me, |c|);
    AmongSizes(c, hosts, |c|);
    assert Right(c[me], hosts, me);
    forall k | k in NumberedAmong(c, hosts, |c|)
      ensures k in Full(hosts) && NumberedAmong(c, hosts, |c|)[k] == Full(hosts)[k]
    {
      AmongAt(c, hosts, |c|, k);
    }
    SubFull(NumberedAmong(c, hosts, |c|), hosts);
  }

  /** While some peer is not up, an agent starts its round again and decides nothing. */
  lemma AbsentRound(c: Cluster, hosts: seq<string>, me: nat)
    requires AllRight(c, hosts) && me < |c| && !AllUp(c)
    ensures Decision(Asked(c, hosts, me, |c|), me, |c|) == Round(c[me])
  {
    RightPlaced(c, hosts);
    AskedKnows(c, hosts, me, |c|);
    AmongSizes(c, hosts, |c|);
    assert c[..|c|] == c;
  }

  /** Some others are numbered and this agent is not: it asks one of them for its list. */
  lemma MixedRound(c: Cluster, hosts: seq<string>, me: nat, other: nat)
    requires AllRight(c, hosts) && AllUp(c) && me < |c| && c[me].number == 0 && other < |c| && c[other].number > 0
    ensures var heard := Asked(c, hosts, me, |c|);
            var a := Decision(heard, me, |c|);
            && a.phase.Copying? && a.phase.peer < |c| && a.phase.peer != me && c[a.phase.peer].number > 0
            && a == heard.(phase := a.phase)
  {
    RightPlaced(c, hosts);
    AskedKnows(c, hosts, me, |c|);
    AmongSizes(c, hosts, |c|);
    assert c[..|c|] == c;
    AmongAt(c, hosts, |c|, other);
    AmongAt(c, hosts, |c|, Source(UnnumberedAmong(c, hosts, |c|), me, |c|, 0));
  }

  /** From a full list the agent gets its number in any case, and it returns if and only if each peer was
      numbered already or comes before the walk breaks off. */
  lemma MixedCopy(c: Cluster, hosts: seq<string>, me: nat, a: Agent, p: Agent, taken: set<nat>)
    requires AllRight(c, hosts) && DistinctHosts(hosts) && me < |c| && a.members == NumberedAmong(c, hosts, |c|)
    requires p.published == Full(hosts) && Takes(p.published, hosts[me], taken)
    ensures var b := Copied(a, p, hosts[me], taken, |c|);
            && b.number == me + 1
            && (b.phase.Returning? <==> forall k :: 1 <= k <= |c| ==> Numbers(c, |c|, k) || k in taken)
            && (b.phase.Returning? ==> b.members == Full(hosts))
  {
    OwnNumber(Full(hosts), hosts, me, taken, a.number);
    TakesOwn(hosts, me, taken);
    CopiedAll(c, hosts, taken);
  }

  lemma CopiedAll(c: Cluster, hosts: seq<string>, taken: set<nat>)
    requires AllRight(c, hosts)
    ensures var members := NumberedAmong(c, hosts, |c|) + Restrict(Full(hosts), taken);
            && (|members| == |c| <==> forall k :: 1 <= k <= |c| ==> Numbers(c, |c|, k) || k in taken)
            && (|members| == |c| ==> members == Full(hosts))
  {
    var members := NumberedAmong(c, hosts, |c|) + Restrict(Full(hosts), taken);
    CopiedAt(c, hosts, taken);
    FullSize(hosts);
    if |members| == |c| {
      SubFull(members, hosts);
    } else {
      assert members != Full(hosts);
    }
  }

  lemma CopiedAt(c: Cluster, hosts: seq<string>, taken: set<nat>)
    requires AllRight(c, hosts)
    ensures var members := NumberedAmong(c, hosts, |c|) + Restrict(Full(hosts), taken);
            && Sub(members, Full(hosts))
            && (forall k: nat :: k in members <==> 1 <= k <= |c| && (Numbers(c, |c|, k) || k in taken))
  {
    RightPlaced(c, hosts);
    forall k: nat
      ensures k in NumberedAmong(c, hosts, |c|) <==> Numbers(c, |c|, k)
      ensures k in NumberedAmong(c, hosts, |c|) ==> NumberedAmong(c, hosts, |c|)[k] == HostAt(hosts, k)
    {
      AmongAt(c, hosts, |c|, k);
    }
  }

  lemma FullSize(hosts: seq<string>)
    ensures |Full(hosts)| == |hosts|
  {
    assert |Full(hosts).Keys| == |Full(hosts)|;
    Interval(Full(hosts).Keys, 1, |hosts|);
  }

  lemma TakesOwn(hosts: seq<string>, me: nat, taken: set<nat>)
    requires me < |hosts| && DistinctHosts(hosts) && Takes(Full(hosts), hosts[me], taken)
    ensures me + 1 in taken
  {
    assert Full(hosts)[me + 1] == hosts[me];
    forall k | k in taken && Full(hosts)[k] == hosts[me] ensures k == me + 1 {
      assert hosts[k - 1] == hosts[me];
    }
  }

  /** All others have finished; this one has not got a number yet. */
  ghost predicate LastOne(c: Cluster, hosts: seq<string>, me: nat) {
    && AllRight(c, hosts) && me < |c| && c[me].up && c[me].number == 0
    && (forall i :: 0 <= i < |c| && i != me ==> c[i].up && c[i].phase.Done?)
  }

  /** One undisturbed round is enough for the last agent, in whatever order it walks the list it
      copies and however early that walk breaks off: what it skips it has heard from the peers. */
  lemma LastRound(c: Cluster, hosts: seq<string>, me: nat, taken: set<nat>)
    requires LastOne(c, hosts, me) && DistinctHosts(hosts) && |c| > 1
    ensures var a := Decision(Asked(c, hosts, me, |c|), me, |c|);
            && a.phase.Copying? && a.phase.peer < |c| && a.phase.peer != me
            && (Takes(c[a.phase.peer].published, hosts[me], taken) ==>
                  var b := Copied(a, c[a.phase.peer], hosts[me], taken, |c|);
                  b.phase.Returning? && b.members == Full(hosts) && b.number == me + 1)
  {
    OthersNumbered(c, hosts, me);
    MixedRound(c, hosts, me, if me == 0 then 1 else 0);
    AskedKnows(c, hosts, me, |c|);
    var a := Decision(Asked(c, hosts, me, |c|), me, |c|);
    assert Right(c[a.phase.peer], hosts, a.phase.peer);
    if Takes(c[a.phase.peer].published, hosts[me], taken) {
      TakesOwn(hosts, me, taken);
      MixedCopy(c, hosts, me, a, c[a.phase.peer], taken);
    }
  }

  lemma OthersNumbered(c: Cluster, hosts: seq<string>, me: nat)
    requires LastOne(c, hosts, me)
    ensures AllUp(c) && (forall i :: 0 <= i < |c| && i != me ==> c[i].number > 0)
    ensures forall k :: 1 <= k <= |c| ==> k == me + 1 || Numbers(c, |c|, k)
  {
    forall i | 0 <= i < |c| && i != me ensures c[i].number > 0 {
      assert Right(c[i], hosts, i);
    }
  }

  /******* From nothing to a cluster *******/

  ghost function Boots(hosts: seq<string>): (Cluster, (nat, Step), Cluster) -> bool {
    (c: Cluster, w: (nat, Step), d: Cluster) => |c| == |hosts| && Stepped(c, hosts, w.0, w.1, d)
  }

  /** One agent moves. */
  lemma Move(hosts: seq<string>, c: Cluster, d: Cluster, me: nat, step: Step, b: Agent)
    requires Reaches(Boots(hosts), c, d) && AllRight(d, hosts) && DistinctHosts(hosts) && me < |d|
    requires Moves(d, hosts, me, step, b)
    ensures Reaches(Boots(hosts), c, d[me := b]) && AllRight(d[me := b], hosts)
  {
    MoveRight(d, hosts, me, step, b);
    assert Stepped(d, hosts, me, step, d[me := b]);
    ReachesOn(Boots(hosts), c, d, (me, step), d[me := b]);
  }

  lemma {:induction false} AskAll(hosts: seq<string>, c: Cluster, me: nat, i: nat)
    requires AllRight(c, hosts) && DistinctHosts(hosts) && me < |c| && i <= |c| && c[me] == Round(c[me])
    ensures Reaches(Boots(hosts), c, c[me := Asked(c, hosts, me, i)]) && AllRight(c[me := Asked(c, hosts, me, i)], hosts)
    ensures Asked(c, hosts, me, i).phase == Asking(i)
  {
    if i == 0 {
      assert c[me := c[me]] == c;
      ReachesRefl(Boots(hosts), c);
    } else {
      AskAll(hosts, c, me, i - 1);
      var d := c[me := Asked(c, hosts, me, i - 1)];
      Move(hosts, c, d, me, Ask, Asked(c, hosts, me, i));
      assert d[me := Asked(c, hosts, me, i)] == c[me := Asked(c, hosts, me, i)];
    }
  }

  const RISEN := FRESH.(up := true)

  /** The first `m` agents have finished, the others are up and have not begun. */
  ghost predicate Booting(c: Cluster, hosts: seq<string>, m: nat) {
    && AllRight(c, hosts) && m <= |c| && AllUp(c)
    && (forall i :: 0 <= i < m ==> c[i].phase.Done?)
    && (forall i :: m <= i < |c| ==> c[i] == RISEN)
  }

  /** The next agent decides, and copies a list unless it is the first. */
  lemma NextReturns(hosts: seq<string>, c: Cluster, m: nat) returns (d: Cluster)
    requires Booting(c, hosts, m) && m < |c| && DistinctHosts(hosts)
    ensures Reaches(Boots(hosts), c, d) && AllRight(d, hosts) && d == c[m := d[m]]
    ensures d[m].phase.Returning? && d[m].up
  {
    if m == 0 {
      var a := NextDecides(hosts, c, m);
      FirstRound(c, hosts, m);
      d := c[m := a];
    } else {
      var b := NextCopied(hosts, c, m);
      d := c[m := b];
    }
  }

  lemma NextCopied(hosts: seq<string>, c: Cluster, m: nat) returns (b: Agent)
    requires Booting(c, hosts, m) && 0 < m < |c| && DistinctHosts(hosts)
    ensures Reaches(Boots(hosts), c, c[m := b]) && AllRight(c[m := b], hosts) && b.phase.Returning? && b.up
  {
    var a := NextDecides(hosts, c, m);
    b := NextCopies(hosts, c, m);
    CopyMoves(hosts, c, m, a, Full(hosts).Keys, b);
    Move(hosts, c, c[m := a], m, Copy(Full(hosts).Keys), b);
  }

  lemma CopyMoves(hosts: seq<string>, c: Cluster, me: nat, a: Agent, taken: set<nat>, b: Agent)
    requires |c| == |hosts| && me < |c| && a.phase.Copying? && a.phase.peer < |c| && a.phase.peer != me
    requires Takes(c[a.phase.peer].published, hosts[me], taken)
    requires b == Copied(a, c[a.phase.peer], hosts[me], taken, |c|)
    ensures Moves(c[me := a], hosts, me, Copy(taken), b) && c[me := a][me := b] == c[me := b]
  {
  }

  lemma NextDecides(hosts: seq<string>, c: Cluster, m: nat) returns (a: Agent)
    requires Booting(c, hosts, m) && m < |c| && DistinctHosts(hosts)
    ensures a == Decision(Asked(c, hosts, m, |c|), m, |c|) && a.up
    ensures Reaches(Boots(hosts), c, c[m := a]) && AllRight(c[m := a], hosts)
  {
    AskAll(hosts, c, m, |c|);
    AskedKnows(c, hosts, m, |c|);
    var heard := Asked(c, hosts, m, |c|);
    a := Decision(heard, m, |c|);
    Move(hosts, c, c[m := heard], m, Decide, a);
    assert c[m := heard][m := a] == c[m := a];
  }

  lemma NextCopies(hosts: seq<string>, c: Cluster, m: nat) returns (b: Agent)
    requires Booting(c, hosts, m) && 0 < m < |c| && DistinctHosts(hosts)
    ensures var a := Decision(Asked(c, hosts, m, |c|), m, |c|);
            && a.phase.Copying? && a.phase.peer < |c| && a.phase.peer != m
            && Takes(c[a.phase.peer].published, hosts[m], Full(hosts).Keys)
            && b == Copied(a, c[a.phase.peer], hosts[m], Full(hosts).Keys, |c|) && b.phase.Returning? && b.up
  {
    assert Right(c[0], hosts, 0);
    MixedRound(c, hosts, m, 0);
    AskedKnows(c, hosts, m, |c|);
    var a := Decision(Asked(c, hosts, m, |c|), m, |c|);
    assert Right(c[a.phase.peer], hosts, a.phase.peer);
    TakesAll(hosts, m);
    MixedCopy(c, hosts, m, a, c[a.phase.peer], Full(hosts).Keys);
    b := Copied(a, c[a.phase.peer], hosts[m], Full(hosts).Keys, |c|);
  }

  lemma TakesAll(hosts: seq<string>, me: nat)
    requires me < |hosts| && DistinctHosts(hosts)
    ensures Takes(Full(hosts), hosts[me], Full(hosts).Keys)
  {
    forall k, l | k in Full(hosts) && l in Full(hosts) && Full(hosts)[k] == hosts[me] == Full(hosts)[l] ensures k == l {
      assert hosts[k - 1] == hosts[l - 1];
    }
  }

  lemma NextFinishes(hosts: seq<string>, c: Cluster, m: nat) returns (d: Cluster)
    requires Booting(c, hosts, m) && m < |c| && DistinctHosts(hosts)
    ensures Reaches(Boots(hosts), c, d) && Booting(d, hosts, m + 1)
  {
    var e := NextReturns(hosts, c, m);
    var b := e[m].(phase := Done, published := e[m].members);
    Move(hosts, c, e, m, Publish, b);
    d := e[m := b];
  }

  ghost function Risen(hosts: seq<string>, m: nat): Cluster {
    seq(|hosts|, i => if i < m then RISEN else FRESH)
  }

  lemma {:induction false} AllRise(hosts: seq<string>, m: nat)
    requires DistinctHosts(hosts) && m <= |hosts|
    ensures Reaches(Boots(hosts), Risen(hosts, 0), Risen(hosts, m)) && AllRight(Risen(hosts, m), hosts)
  {
    if m == 0 {
      ReachesRefl(Boots(hosts), Risen(hosts, 0));
    } else {
      AllRise(hosts, m - 1);
      Move(hosts, Risen(hosts, 0), Risen(hosts, m - 1), m - 1, Rise, RISEN);
      assert Risen(hosts, m - 1)[m - 1 := RISEN] == Risen(hosts, m);
    }
  }

  lemma {:induction false} AllFinish(hosts: seq<string>, c: Cluster, m: nat) returns (d: Cluster)
    requires Booting(c, hosts, m) && DistinctHosts(hosts)
    ensures Reaches(Boots(hosts), c, d) && Booting(d, hosts, |hosts|)
    decreases |hosts| - m
  {
    d := c;
    ReachesRefl(Boots(hosts), c);
    if m < |c| {
      var e := NextFinishes(hosts, c, m);
      d := AllFinish(hosts, e, m + 1);
      ReachesTrans(Boots(hosts), c, e, d);
    }
  }

  /** A new cluster can come up: some interleaving from nothing ends with all agents done, and by the
      agreement all have the same list. */
  lemma ComesUp(hosts: seq<string>) returns (who: seq<nat>, steps: seq<Step>, cs: seq<Cluster>)
    requires DistinctHosts(hosts)
    ensures IsBoot(hosts, who, steps, cs)
    ensures forall i :: 0 <= i < |hosts| ==> cs[|steps|][i].phase.Done? && cs[|steps|][i].published == Full(hosts)
  {
    AllRise(hosts, |hosts|);
    var start, risen := Risen(hosts, 0), Risen(hosts, |hosts|);
    var d := AllFinish(hosts, risen, 0);
    ReachesTrans(Boots(hosts), start, risen, d);
    var acts: seq<(nat, Step)>;
    cs, acts :| Connects(cs, acts, Boots(hosts), start, d);
    who, steps := seq(|acts|, i requires 0 <= i < |acts| => acts[i].0), seq(|acts|, i requires 0 <= i < |acts| => acts[i].1);
    IsBootFrom(hosts, cs, acts, who, steps);
    forall i | 0 <= i < |hosts| ensures cs[|steps|][i].phase.Done? && cs[|steps|][i].published == Full(hosts) {
      assert Right(d[i], hosts, i);
    }
  }

  lemma IsBootFrom(hosts: seq<string>, cs: seq<Cluster>, acts: seq<(nat, Step)>, who: seq<nat>, steps: seq<Step>)
    requires Chain(cs, acts, Boots(hosts)) && cs[0] == Risen(hosts, 0)
    requires |who| == |acts| == |steps| && forall i :: 0 <= i < |acts| ==> acts[i] == (who[i], steps[i])
    ensures IsBoot(hosts, who, steps, cs)
  {
    assert Risen(hosts, 0) == seq(|hosts|, i => FRESH);
    forall i | 0 <= i < |acts| ensures |cs[i]| == |hosts| && Stepped(cs[i], hosts, who[i], steps[i], cs[i + 1]) {
      assert Linked(cs, acts, Boots(hosts), i);
    }
    forall i | 0 <= i < |cs| ensures |cs[i]| == |hosts| {
      if i > 0 {
        assert Linked(cs, acts, Boots(hosts), i - 1);
      }
    }
  }
}
