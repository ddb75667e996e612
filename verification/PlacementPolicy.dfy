/**
 Reading a shard's placement policy from its tags. Tags come in an arbitrary order; the policy does
 not depend on it unless a `cover` tag meets a replica group that is itself called "cover".
 */
module PlacementPolicy {
  import opened Numerals
  import opened Registry
  import opened TagText
  import opened Placement

  /** What one tag says. */
  datatype Decl = Vary(key: string) | Group(group: string, spec: GroupSpec) | Cover(tags: seq<string>) | Ignored

  function GroupDecl(g: string, value: string): Decl {
    match ParseGroup(value)
    case None => Ignored
    case Some(spec) => Group(g, spec)
  }

  function Declare(key: string, value: string): Decl {
    if !("placement:" <= key) then Ignored
    else
      var rest := key[10..];
      if rest == "vary" then Vary(value)
      else if rest == "member" then GroupDecl(MEMBER, value)
      else if "replica:" <= rest then
        if rest[8..] == "" || rest[8..] == MEMBER then Ignored else GroupDecl(rest[8..], value)
      else if rest == "cover" then Cover(Split(value, ';'))
      else Ignored
  }

  /** No two keys declare the same thing. */
  lemma DeclareInjective(key: string, value: string, key': string, value': string)
    requires Rivals(Declare(key, value), Declare(key', value'))
    ensures key == key'
  {
    var rest, rest' := key[10..], key'[10..];
    assert key == "placement:" + rest && key' == "placement:" + rest';
    if Declare(key, value).Group? && rest != "member" {
      assert rest == "replica:" + rest[8..];
      assert rest' == "replica:" + rest'[8..];
    }
  }

  function Decls(m: map<string, string>): set<Decl> {
    set key | key in m :: Declare(key, m[key])
  }

  ghost predicate Functional(ds: set<Decl>) {
    forall d, d' :: d in ds && d' in ds && Rivals(d, d') ==> d == d'
  }

  lemma DeclsFunctional(m: map<string, string>)
    ensures Functional(Decls(m))
  {
    forall d, d' | d in Decls(m) && d' in Decls(m) && Rivals(d, d') ensures d == d' {
      RivalsSame(m, d, d');
    }
  }

  /** Two declarations about the same thing. */
  predicate Rivals(d: Decl, d': Decl) {
    (d.Vary? && d'.Vary?) || (d.Cover? && d'.Cover?) || (d.Group? && d'.Group? && d.group == d'.group)
  }

  lemma RivalsSame(m: map<string, string>, d: Decl, d': Decl)
    requires d in Decls(m) && d' in Decls(m) && Rivals(d, d')
    ensures d == d'
  {
    var key :| key in m && Declare(key, m[key]) == d;
    var key' :| key' in m && Declare(key', m[key']) == d';
    DeclareInjective(key, m[key], key', m[key']);
  }

  /******* Meaning *******/

  /** Hosts that carry the tag; an empty value matches any. The empty key is not indexed. */
  function CoverHosts(hosts: map<string, Host>, tag: string): set<string> {
    set h | h in hosts && Covers(hosts[h].tags.Entries(), tag)
  }

  predicate Covers(tags: map<string, string>, tag: string) {
    var (k, v) := ParseTag(tag);
    k != "" && k in tags && (v == "" || tags[k] == v)
  }

  function CoverTotal(hosts: map<string, Host>, tags: seq<string>): nat {
    if tags == [] then 0 else CoverTotal(hosts, tags[..|tags| - 1]) + |CoverHosts(hosts, tags[|tags| - 1])|
  }

  function Count(m: map<string, int>, k: string): int {
    if k in m then m[k] else 0
  }

  /** Raise a group's count, which may create the group, and extend its filter. */
  function Extend(p: Policy, g: string, n: nat, tags: seq<string>): Policy {
    p.(desired := if n > 0 then p.desired[g := Count(p.desired, g) + n] else p.desired,
       filters := p.filters[g := FilterOf(p, g) + tags])
  }

  function AddGroup(p: Policy, g: string, spec: GroupSpec): Policy {
    p.(desired := p.desired[g := spec.count], filters := p.filters[g := spec.filter])
  }

  /** One tag's effect. A cover tag asks for one replica per host and tag it matches. */
  function PolicyStep(p: Policy, hosts: map<string, Host>, d: Decl): Policy {
    match d
    case Vary(key) => p.(vary := Some(key))
    case Cover(tags) => Extend(p, COVER, CoverTotal(hosts, tags), tags)
    case Group(g, spec) => AddGroup(p, g, spec)
    case Ignored => p
  }

  /** A cover tag beside a replica group named "cover". */
  ghost predicate Clash(ds: set<Decl>) {
    exists c, d :: c in ds && c.Cover? && d in ds && d.Group? && d.group == COVER
  }

  /** The group has exactly this count and filter, the count only if there is one. */
  predicate Has(p: Policy, g: string, count: Option<int>, filter: seq<string>) {
    && (if count.Some? then g in p.desired && p.desired[g] == count.value else g !in p.desired)
    && g in p.filters && p.filters[g] == filter
  }

  predicate Lacks(p: Policy, g: string) {
    g !in p.desired && g !in p.filters
  }

  /** Some declaration is about the group. */
  ghost predicate Mentions(ds: set<Decl>, g: string) {
    exists d :: d in ds && ((d.Group? && d.group == g) || (d.Cover? && g == COVER))
  }

  /** The policy that a set of declarations states, group by group. */
  ghost predicate States(ds: set<Decl>, hosts: map<string, Host>, p: Policy) {
    && (forall d :: d in ds && d.Group? ==> Has(p, d.group, Some(d.spec.count), d.spec.filter))
    && (forall d :: d in ds && d.Cover? ==>
          var n := CoverTotal(hosts, d.tags);
          Has(p, COVER, if n > 0 then Some(n) else None, d.tags))
    && (forall g :: !Lacks(p, g) ==> Mentions(ds, g))
    && (forall d :: d in ds && d.Vary? ==> p.vary == Some(d.key))
    && (p.vary.Some? ==> exists d :: d in ds && d.Vary?)
  }

  ghost predicate Reads(m: map<string, string>, hosts: map<string, Host>, p: Policy) {
    States(Decls(m), hosts, p)
  }

  lemma MentionsMore(ds: set<Decl>, d: Decl)
    ensures forall g :: Mentions(ds, g) ==> Mentions(ds + {d}, g)
  {
    forall g | Mentions(ds, g) ensures Mentions(ds + {d}, g) {
      var x :| x in ds && ((x.Group? && x.group == g) || (x.Cover? && g == COVER));
      assert x in ds + {d};
    }
  }

  lemma StatesGroup(ds: set<Decl>, hosts: map<string, Host>, p: Policy, g: string, spec: GroupSpec)
    requires States(ds, hosts, p) && !Mentions(ds, g)
    ensures States(ds + {Group(g, spec)}, hosts, AddGroup(p, g, spec))
  {
    var d, q := Group(g, spec), AddGroup(p, g, spec);
    MentionsMore(ds, d);
    assert d in ds + {d} && Mentions(ds + {d}, g);
    forall x | x in ds && x.Group? ensures Has(q, x.group, Some(x.spec.count), x.spec.filter) {
      assert x.group != g;
    }
    forall x | x in ds && x.Cover? ensures g != COVER {
      assert Mentions(ds, COVER);
    }
    forall x | !Lacks(q, x) ensures Mentions(ds + {d}, x) {
      if x != g {
        assert !Lacks(p, x);
      }
    }
  }

  lemma StatesCover(ds: set<Decl>, hosts: map<string, Host>, p: Policy, tags: seq<string>)
    requires States(ds, hosts, p) && !Mentions(ds, COVER)
    ensures States(ds + {Cover(tags)}, hosts, Extend(p, COVER, CoverTotal(hosts, tags), tags))
  {
    var d, n := Cover(tags), CoverTotal(hosts, tags);
    var q := Extend(p, COVER, n, tags);
    MentionsMore(ds, d);
    assert d in ds + {d} && Mentions(ds + {d}, COVER);
    assert Lacks(p, COVER);
    assert [] + tags == tags;
    assert Has(q, COVER, if n > 0 then Some(n) else None, tags);
    forall x | x in ds && x.Group? ensures Has(q, x.group, Some(x.spec.count), x.spec.filter) {
      assert Mentions(ds, x.group);
    }
    forall x | !Lacks(q, x) ensures Mentions(ds + {d}, x) {
      if x != COVER {
        assert !Lacks(p, x);
      }
    }
  }

  /** Tags may be read one at a time, in any order. */
  lemma StatesStep(ds: set<Decl>, hosts: map<string, Host>, p: Policy, d: Decl)
    requires States(ds, hosts, p)
    requires d.Ignored? || d !in ds
    requires Functional(ds + {d}) && !Clash(ds + {d})
    ensures States(ds + {d}, hosts, PolicyStep(p, hosts, d))
  {
    match d
    case Group(g, spec) => StatesGroup(ds, hosts, p, g, spec);
    case Cover(tags) => StatesCover(ds, hosts, p, tags);
    case Vary(_) => StatesOther(ds, hosts, p, d);
    case Ignored => StatesOther(ds, hosts, p, d);
  }

  lemma StatesOther(ds: set<Decl>, hosts: map<string, Host>, p: Policy, d: Decl)
    requires States(ds, hosts, p) && (d.Ignored? || (d.Vary? && forall x :: x in ds ==> !x.Vary?))
    ensures States(ds + {d}, hosts, PolicyStep(p, hosts, d))
  {
    var q := PolicyStep(p, hosts, d);
    MentionsMore(ds, d);
    forall x | !Lacks(q, x) ensures Mentions(ds + {d}, x) {
      assert !Lacks(p, x);
    }
    if q.vary.Some? && !d.Vary? {
      var v :| v in ds && v.Vary?;
      assert v in ds + {d};
    }
  }

  lemma StatesUnique(ds: set<Decl>, hosts: map<string, Host>, p: Policy, q: Policy)
    requires States(ds, hosts, p) && States(ds, hosts, q)
    ensures p == q
  {
    assert p.vary == q.vary;
    forall g ensures (g in p.desired <==> g in q.desired) && (g in p.filters <==> g in q.filters)
      ensures g in p.desired && g in q.desired ==> p.desired[g] == q.desired[g]
      ensures g in p.filters && g in q.filters ==> p.filters[g] == q.filters[g]
    {
      if !Lacks(p, g) || !Lacks(q, g) {
        var d :| d in ds && ((d.Group? && d.group == g) || (d.Cover? && g == COVER));
      }
    }
    assert p.desired == q.desired && p.filters == q.filters;
  }

  /** Two tags commute unless one is a cover tag and the other a replica group called "cover"; those
      two never do. */
  lemma OrderMattersExactly(p: Policy, hosts: map<string, Host>, a: Decl, b: Decl)
    requires a != b && Functional({a, b})
    requires (a.Cover? ==> a.tags != []) && (b.Cover? ==> b.tags != [])
    ensures PolicyStep(PolicyStep(p, hosts, a), hosts, b) == PolicyStep(PolicyStep(p, hosts, b), hosts, a)
            <==> !Clash({a, b})
  {
    if a.Cover? && b.Group? {
      CoverAndGroup(p, CoverTotal(hosts, a.tags), a.tags, b.group, b.spec);
    } else if b.Cover? && a.Group? {
      CoverAndGroup(p, CoverTotal(hosts, b.tags), b.tags, a.group, a.spec);
    } else if a.Group? && b.Group? {
      TwoGroups(p, a.group, a.spec, b.group, b.spec);
    }
  }

  lemma CoverAndGroup(p: Policy, n: nat, tags: seq<string>, g: string, spec: GroupSpec)
    requires tags != []
    ensures AddGroup(Extend(p, COVER, n, tags), g, spec) == Extend(AddGroup(p, g, spec), COVER, n, tags)
            <==> g != COVER
  {
    var first := AddGroup(Extend(p, COVER, n, tags), g, spec);
    var last := Extend(AddGroup(p, g, spec), COVER, n, tags);
    if g == COVER {
      assert |first.filters[COVER]| < |last.filters[COVER]|;
    } else {
      assert first.desired == last.desired && first.filters == last.filters;
    }
  }

  lemma TwoGroups(p: Policy, g: string, spec: GroupSpec, h: string, spec': GroupSpec)
    requires g != h
    ensures AddGroup(AddGroup(p, g, spec), h, spec') == AddGroup(AddGroup(p, h, spec'), g, spec)
  {
    var a, b := AddGroup(AddGroup(p, g, spec), h, spec'), AddGroup(AddGroup(p, h, spec'), g, spec);
    assert a.desired == b.desired && a.filters == b.filters;
  }

  /******* The loop *******/

  method CountHosts(hosts: map<string, Host>, tag: string) returns (n: nat)
    ensures n == |CoverHosts(hosts, tag)|
  {
    var todo := hosts.Keys;
    n := 0;
    ghost var counted := {};
    while todo != {}
      invariant todo <= hosts.Keys && n == |counted| && counted !! todo
      invariant counted == CoverHosts(hosts, tag) - todo
    {
      var h :| h in todo;
      todo := todo - {h};
      if Covers(hosts[h].tags.Entries(), tag) {
        n, counted := n + 1, counted + {h};
      }
    }
    assert CoverHosts(hosts, tag) - todo == CoverHosts(hosts, tag);
  }

  method CountCover(hosts: map<string, Host>, tags: seq<string>) returns (n: nat)
    ensures n == CoverTotal(hosts, tags)
  {
    n := 0;
    for i := 0 to |tags|
      invariant n == CoverTotal(hosts, tags[..i])
    {
      var hits := CountHosts(hosts, tags[i]);
      n := n + hits;
      assert tags[..i + 1][..i] == tags[..i];
    }
    assert tags[..|tags|] == tags;
  }

  method ExtendGroup(p: Policy, g: string, n: nat, tags: seq<string>) returns (q: Policy)
    ensures q == Extend(p, g, n, tags)
  {
    q := p;
    if n > 0 {
      q := q.(desired := q.desired[g := Count(q.desired, g) + n]);
    }
    q := q.(filters := q.filters[g := FilterOf(q, g) + tags]);
  }

  method ReadTag(p: Policy, hosts: map<string, Host>, d: Decl) returns (q: Policy)
    ensures q == PolicyStep(p, hosts, d)
  {
    q := p;
    match d {
      case Vary(key) =>
        q := q.(vary := Some(key));
      case Group(g, spec) =>
        q := q.(desired := q.desired[g := spec.count], filters := q.filters[g := spec.filter]);
      case Cover(tags) =>
        var n := CountCover(hosts, tags);
        q := ExtendGroup(q, COVER, n, tags);
      case Ignored =>
    }
  }

  /** The tags read so far. */
  function Part(m: map<string, string>, todo: set<string>): map<string, string> {
    map key | key in m && key !in todo :: m[key]
  }

  /** Resolve the desired state from the shard's tags, whatever order they come in. */
  method ReadPolicy(m: map<string, string>, hosts: map<string, Host>) returns (p: Policy)
    ensures !Clash(Decls(m)) ==> Reads(m, hosts, p)
  {
    p := Policy(map[], map[], None);
    var todo := m.Keys;
    while todo != {}
      invariant todo <= m.Keys
      invariant !Clash(Decls(m)) ==> Reads(Part(m, todo), hosts, p)
    {
      var key :| key in todo;
      ghost var before := p;
      p := ReadTag(p, hosts, Declare(key, m[key]));
      if !Clash(Decls(m)) {
        ReadStep(m, hosts, todo, key, before);
      }
      todo := todo - {key};
    }
    assert Part(m, {}) == m;
  }

  lemma ReadStep(m: map<string, string>, hosts: map<string, Host>, todo: set<string>, key: string, p: Policy)
    requires key in todo && todo <= m.Keys && !Clash(Decls(m))
    requires Reads(Part(m, todo), hosts, p)
    ensures Reads(Part(m, todo - {key}), hosts, PolicyStep(p, hosts, Declare(key, m[key])))
  {
    var d, ds := Declare(key, m[key]), Decls(Part(m, todo));
    assert Decls(Part(m, todo - {key})) == ds + {d} by {
      PartDecls(m, todo, key);
    }
    assert ds + {d} <= Decls(m) by {
      PartDecls(m, todo, key);
    }
    DeclsFunctional(m);
    if d in ds && !d.Ignored? {
      var x :| x in Part(m, todo) && Declare(x, m[x]) == d;
      DeclareInjective(x, m[x], key, m[key]);
    }
    StatesStep(ds, hosts, p, d);
  }

  lemma PartDecls(m: map<string, string>, todo: set<string>, key: string)
    requires key in todo && todo <= m.Keys
    ensures Decls(Part(m, todo - {key})) == Decls(Part(m, todo)) + {Declare(key, m[key])}
    ensures Decls(Part(m, todo - {key})) <= Decls(m)
  {
    var part, more := Part(m, todo), Part(m, todo - {key});
    forall d | d in Decls(more) ensures d in Decls(part) + {Declare(key, m[key])} && d in Decls(m) {
      var x :| x in more && Declare(x, more[x]) == d;
      assert x in m && (x == key || x in part);
    }
    forall d | d in Decls(part) ensures d in Decls(more) {
      var x :| x in part && Declare(x, part[x]) == d;
      assert x in more;
    }
    assert key in more;
  }

  /******* From an option to the policy *******/

  /** What a caller asks for when creating a shard. */
  datatype Request = Members(n: int, tags: seq<string>) | Replicas(group: string, n: int, tags: seq<string>) {
    function Key(): string {
      match this
      case Members(_, _) => "placement:member"
      case Replicas(group, _, _) => "placement:replica:" + group
    }

    function Text(): string {
      PrintGroup(n, tags)
    }

    function Group(): string {
      match this
      case Members(_, _) => MEMBER
      case Replicas(group, _, _) => group
    }

    /** The number fits and no tag holds the separator. */
    predicate Printable() {
      IsInt64(n) && forall i :: 0 <= i < |tags| ==> Free(tags[i], ';')
    }
  }

  lemma KeyParts(group: string)
    ensures var key := "placement:replica:" + group;
            && "placement:" <= key && key[10..] == "replica:" + group
            && "replica:" <= key[10..] && key[10..][8..] == group
            && key[10..] != "vary" && key[10..] != "member"
  {
    var key := "placement:replica:" + group;
    assert key == "placement:" + ("replica:" + group);
    assert key[10..] == "replica:" + group;
    assert key[10] == 'r';
  }

  /** A request is read back as the group it names, with its number and a filter that accepts exactly the
      same hosts, if and only if it is for the members or for replicas under a name other than "" and
      "member"; any other request says nothing. */
  lemma RequestRoundTrip(q: Request, src: map<string, string>)
    requires q.Printable()
    ensures var d := Declare(q.Key(), q.Text());
            && (d.Group? <==> q.Members? || (q.group != "" && q.group != MEMBER))
            && (!d.Group? ==> d == Ignored)
            && (d.Group? ==>
                  && d.group == q.Group() && d.spec.count == q.n
                  && (MatchFilter(src, d.spec.filter) <==> MatchFilter(src, q.tags)))
  {
    PolicyRoundTrip(q.n, q.tags, src);
    match q
    case Members(_, _) => assert "placement:member"[10..] == "member";
    case Replicas(group, _, _) => KeyParts(group);
  }

  /** So the policy read from a shard's tags has the group as requested, beside whatever else the tags
      say. */
  lemma RequestHonoured(q: Request, m: map<string, string>, hosts: map<string, Host>, p: Policy, src: map<string, string>)
    requires q.Printable() && (q.Members? || (q.group != "" && q.group != MEMBER))
    requires q.Key() in m && m[q.Key()] == q.Text() && Reads(m, hosts, p)
    ensures q.Group() in p.desired && p.desired[q.Group()] == q.n
    ensures MatchFilter(src, FilterOf(p, q.Group())) <==> MatchFilter(src, q.tags)
  {
    RequestRoundTrip(q, src);
    var d := Declare(q.Key(), q.Text());
    assert d in Decls(m);
    assert Has(p, d.group, Some(d.spec.count), d.spec.filter);
  }

  /** Replicas under the name "member", or under none, are silently not asked for. */
  lemma RequestIgnored(q: Request, hosts: map<string, Host>, p: Policy)
    requires q.Printable() && q.Replicas? && (q.group == "" || q.group == MEMBER)
    requires Reads(map[q.Key() := q.Text()], hosts, p)
    ensures p == Policy(map[], map[], None)
  {
    RequestRoundTrip(q, map[]);
    var m := map[q.Key() := q.Text()];
    forall d | d in Decls(m) ensures d == Ignored {
      var key :| key in m && Declare(key, m[key]) == d;
    }
    forall g ensures g !in p.desired && g !in p.filters {
      assert !Mentions(Decls(m), g);
      assert Lacks(p, g);
    }
    assert p.desired == map[] && p.filters == map[];
  }

  /** The tags of a shard whose policy depends on the order in which they are read. */
  lemma CoverReadTwice(p: Policy, hosts: map<string, Host>) returns (m: map<string, string>, a: Decl, b: Decl)
    ensures a in Decls(m) && b in Decls(m) && Clash(Decls(m))
    ensures PolicyStep(PolicyStep(p, hosts, a), hosts, b) != PolicyStep(PolicyStep(p, hosts, b), hosts, a)
  {
    var q := Replicas(COVER, 2, []);
    a, b := Declare("placement:cover", "zone"), Declare(q.Key(), q.Text());
    m := map["placement:cover" := "zone", q.Key() := q.Text()];
    RequestRoundTrip(q, map[]);
    assert "placement:cover"[10..] == "cover";
    assert a == Cover(Split("zone", ';'));
    assert "placement:cover" in m && m["placement:cover"] == "zone";
    assert q.Key() in m && m[q.Key()] == q.Text();
    OrderMattersExactly(p, hosts, a, b);
  }

  /** A cover tag with a value counts the hosts that have this value under its key, and one without counts
      those that have the key. */
  lemma CoversExactly(tags: map<string, string>, k: string, v: string)
    requires k != "" && Free(k, '=')
    ensures Covers(tags, k) <==> k in tags
    ensures Covers(tags, FormatTag(k, v)) <==> k in tags && (v == "" || tags[k] == v)
  {
    var tag := FormatTag(k, v);
    assert IndexOf(k, '=') < 0;
    assert tag[|k|] == '=' && forall i :: 0 <= i < |k| ==> tag[i] == k[i];
    assert IndexOf(tag, '=') == |k|;
    assert tag[..|k|] == k && tag[|k| + 1..] == v;
  }

  /** A cover declaration asks for one replica per tag and host that carries it. */
  lemma {:induction false} CoverTotalExactly(hosts: map<string, Host>, tags: seq<string>)
    ensures CoverTotal(hosts, tags)
            == |set i, h | 0 <= i < |tags| && h in hosts && Covers(hosts[h].tags.Entries(), tags[i]) :: (i, h)|
  {
    if tags != [] {
      var n := |tags| - 1;
      CoverTotalExactly(hosts, tags[..n]);
      CoverPairs(hosts, tags);
      PairsSize(n, CoverHosts(hosts, tags[n]));
    }
  }

  lemma CoverPairs(hosts: map<string, Host>, tags: seq<string>)
    requires tags != []
    ensures var n := |tags| - 1;
            var front := tags[..n];
            var before := set i, h | 0 <= i < |front| && h in hosts && Covers(hosts[h].tags.Entries(), front[i]) :: (i, h);
            var last := set h | h in CoverHosts(hosts, tags[n]) :: (n, h);
            && before !! last
            && (set i, h | 0 <= i < |tags| && h in hosts && Covers(hosts[h].tags.Entries(), tags[i]) :: (i, h)) == before + last
  {
  }

  lemma {:induction false} PairsSize(n: int, hosts: set<string>)
    ensures |set h | h in hosts :: (n, h)| == |hosts|
  {
    if hosts != {} {
      var h :| h in hosts;
      PairsSize(n, hosts - {h});
      assert (set x | x in hosts :: (n, x)) == (set x | x in hosts - {h} :: (n, x)) + {(n, h)};
    }
  }

  /** The other two options: the tags of a cover are read back one by one, and the keys to vary by are read
      as a single key, which is the one given if it is only one. */
  lemma OptionsRead(tags: seq<string>)
    requires tags != [] && forall i :: 0 <= i < |tags| ==> Free(tags[i], ';')
    ensures Declare("placement:cover", Join(tags, ';')) == Cover(tags)
    ensures Declare("placement:vary", Join(tags, ';')) == Vary(Join(tags, ';'))
    ensures |tags| == 1 ==> Join(tags, ';') == tags[0]
  {
    KeysRead(Join(tags, ';'));
    SplitJoin(tags, ';');
  }

  lemma KeysRead(value: string)
    ensures Declare("placement:cover", value) == Cover(Split(value, ';'))
    ensures Declare("placement:vary", value) == Vary(value)
  {
    assert "placement:cover"[10..] == "cover" && "placement:vary"[10..] == "vary";
    assert "cover"[0] == 'c' && "vary"[0] == 'v' && "member"[0] == 'm' && "replica:"[0] == 'r';
  }
}
