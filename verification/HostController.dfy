/**
 The host controller: start the replicas that the registry assigns to this host and that are not
 running yet. It looks again only when its host's row carries a newer stamp, so what it has once
 covered must stay covered, whatever other proposers do between its read, its starts and its
 proposals, and whenever the process dies.
 */
module HostController {
  import opened Chains
  import opened Registry
  import opened RegistryRuns
  import opened Iteration
  import opened Watermarks
  import opened Places

  /** A raft node on this host, by shard and replica id. */
  type Node = (nat, nat)

  /** The replicas that should run here. */
  predicate Wanted(s: State, me: string, r: nat) {
    r in s.replicas && s.replicas[r].hostId == me && s.replicas[r].shardId != 0
  }

  /** Running, or of a stored shard whose type is not registered here. */
  predicate Handled(s: State, r: nat, types: set<string>, running: set<Node>)
    requires r in s.replicas
  {
    (s.replicas[r].shardId, r) in running || Unregistered(s, r, types)
  }

  predicate Unregistered(s: State, r: nat, types: set<string>)
    requires r in s.replicas
  {
    s.replicas[r].shardId in s.shards && s.shards[s.replicas[r].shardId].shardType !in types
  }

  ghost predicate Covered(s: State, me: string, types: set<string>, running: set<Node>) {
    forall r :: Wanted(s, me, r) ==> Handled(s, r, types, running)
  }

  /** What the watermark promises: nothing that should run is missing. */
  ghost predicate Complete(s: State, me: string, index: nat, types: set<string>, running: set<Node>) {
    me in s.hosts && s.hosts[me].updated <= index ==> Covered(s, me, types, running)
  }

  /** Replica ids of running nodes mean what the registry means by them. The node of the prime shard
      may run before the registry knows it. */
  ghost predicate Aligned(s: State, prime: nat, running: set<Node>) {
    && (prime in s.replicas ==> s.replicas[prime].shardId == 0)
    && (forall n :: n in running && n != (0, prime) ==>
          n.1 <= s.replicaCounter && (n.1 in s.replicas ==> s.replicas[n.1].shardId == n.0))
  }

  /** Covered at `base`, where the watermark was taken, and trustworthy since; or due for a look. */
  ghost predicate Anchored(s: State, base: State, me: string, index: nat, types: set<string>, running: set<Node>) {
    && index <= s.index
    && (|| Stale(s, me, index)
        || (index <= base.index <= s.index && QuietHosts(base, s) && Covered(base, me, types, running)))
  }

  /** The anchor is enough for the promise. */
  lemma AnchoredComplete(s: State, base: State, me: string, index: nat, types: set<string>, running: set<Node>)
    requires Anchored(s, base, me, index, types, running)
    ensures Complete(s, me, index, types, running)
  {
    if me in s.hosts && s.hosts[me].updated <= index {
      forall r | Wanted(s, me, r) ensures Handled(s, r, types, running) {
        assert r in RowsOnHost(s, me);
        assert r in RowsOnHost(base, me) && RowsOnHost(base, me)[r] == s.replicas[r];
        assert Wanted(base, me, r) && Handled(base, r, types, running);
        assert SameType(base, s, s.replicas[r].shardId);
      }
    }
  }

  lemma AnchoredLater(s: State, t: State, base: State, me: string, index: nat, types: set<string>, running: set<Node>,
                      running': set<Node>)
    requires Anchored(s, base, me, index, types, running) && Later(s, t) && running <= running'
    ensures Anchored(t, base, me, index, types, running')
  {
    if Stale(s, me, index) {
      assert Stale(t, me, index);
    } else {
      assert QuietHosts(base, t);
      assert forall r :: Wanted(base, me, r) ==> Handled(base, r, types, running);
    }
  }

  lemma AlignedLater(s: State, t: State, prime: nat, running: set<Node>)
    requires Aligned(s, prime, running) && Stays(s, t)
    requires prime in t.replicas ==> t.replicas[prime].shardId == 0
    ensures Aligned(t, prime, running)
  {
  }

  /******* Other proposers *******/

  /** Events that other proposers can bring about: no replica is reassigned, and the id of the prime
      shard's node is not given to another shard's replica. */
  predicate Possible(s: State, event: Event, prime: nat) {
    match event
    case Restart(_) => true
    case Commit(e) =>
      && s.index < e.index < U64_LIMIT && Apply(s, e).Next? && Still(s, event)
      && (e.cmd.ReplicaPost? && e.cmd.replica.shardId != 0 ==> s.replicaCounter + 1 != prime)
  }

  ghost predicate PrimeKept(s: State, prime: nat) {
    prime in s.replicas ==> s.replicas[prime].shardId == 0
  }

  lemma PossibleLater(s: State, event: Event, prime: nat, t: State)
    requires Inv(s) && Possible(s, event, prime) && PrimeKept(s, prime) && Stepped(s, event, t)
    ensures Later(s, t) && PrimeKept(t, prime)
  {
    match event
    case Restart(_) => RestartLater(s, t);
    case Commit(e) =>
      CommitLater(s, e);
      PrimeStep(s, e, prime);
  }

  lemma PrimeStep(s: State, e: Entry, prime: nat)
    requires Inv(s) && Possible(s, Commit(e), prime) && PrimeKept(s, prime)
    ensures PrimeKept(Apply(s, e).state, prime)
  {
    var t, u := Apply(s, e).state, ApplyCommand(s, e.cmd, e.index).state;
    assert t.replicas == u.replicas;
    if e.cmd.ReplicaPost? {
      PostStores(s, e.cmd.replica, e.index);
    } else if e.cmd.ReplicaPut? && e.cmd.replica.id in s.replicas {
      PutStores(s, e.cmd.replica, e.index);
    } else if !WritesRow(e.cmd) {
      OtherCommandShrinks(s, e);
    }
  }

  lemma LaterRefl(s: State)
    requires Inv(s)
    ensures Later(s, s)
  {
  }

  /******* The controller, step by step *******/

  /** This host, the shard types registered on it, and the replica id of its prime shard's node. */
  datatype Setup = Setup(me: string, types: set<string>, prime: nat)

  /** Between ticks; with `todo` of the snapshot still to be started; or with `r` of it started and
      still to be reported. `failed` is the error variable of the loop, `hadErr` that of the tick. */
  datatype Phase =
    | Idle
    | Starting(snap: State, todo: set<nat>, failed: bool, hadErr: bool)
    | Reporting(snap: State, todo: set<nat>, r: nat, hadErr: bool)

  /** The registry, the controller's watermark, the nodes that run and what the controller is at.
      `base` is the registry that the watermark was read from. */
  datatype Sys = Sys(reg: State, index: nat, running: set<Node>, base: State, phase: Phase)

  /** What becomes of a proposal: turned down, committed though the answer is lost, or committed. */
  datatype Answer = Refused | Lost | Accepted

  /** Another proposer's event or a restart of the registry; a new process; and the controller's own
      steps. A report that is committed is so at some later index. */
  datatype Act =
    | Foreign(event: Event)
    | Reboot
    | Begin
    | Take(r: nat, starts: bool)
    | Report(answer: Answer, at: nat)
    | Finish

  function Booted(c: Setup, reg: State): Sys {
    Sys(reg, 0, {(0, c.prime)}, reg, Idle)
  }

  /** What the survey of the registry finds missing. Nodes go by replica id alone. */
  ghost function Missing(s: State, me: string, running: set<Node>): set<nat> {
    set r | r in s.replicas && Wanted(s, me, r) && !Runs(running, r)
  }

  ghost function Begun(c: Setup, a: Sys): Sys {
    if c.me in a.reg.hosts && a.reg.hosts[c.me].updated > a.index
    then a.(phase := Starting(a.reg, Missing(a.reg, c.me, a.running), false, false))
    else a
  }

  predicate Known(status: string) {
    status == BOOTSTRAPPING || status == JOINING || status == ACTIVE
  }

  /** Start a replica by its status; a status outside the three leaves the last error standing. */
  function StartFails(s: State, r: nat, starts: bool, failed: bool): bool
    requires r in s.replicas
  {
    var row := s.replicas[r];
    if row.status == BOOTSTRAPPING && |Members(s.replicas, row.shardId)| < 3 then true
    else if Known(row.status) then !starts
    else failed
  }

  function Taken(c: Setup, a: Sys, r: nat, starts: bool): Sys
    requires a.phase.Starting?
  {
    var Starting(s, todo, failed, hadErr) := a.phase;
    if r !in s.replicas || s.replicas[r].shardId !in s.shards then
      a.(phase := Starting(s, todo - {r}, failed, true))
    else if Unregistered(s, r, c.types) then
      a.(phase := Starting(s, todo - {r}, failed, hadErr))
    else if StartFails(s, r, starts, failed) then
      a.(phase := Starting(s, todo - {r}, true, true))
    else
      a.(running := a.running + if Known(s.replicas[r].status) then {(s.replicas[r].shardId, r)} else {},
         phase := Reporting(s, todo - {r}, r, hadErr))
  }

  ghost predicate Reports(a: Sys, answer: Answer, at: nat, b: Sys)
    requires a.phase.Reporting?
  {
    var Reporting(s, todo, r, hadErr) := a.phase;
    if answer == Refused then b == a.(phase := Starting(s, todo, true, true))
    else
      && a.reg.index < at < U64_LIMIT
      && var step := Apply(a.reg, Entry(at, ReplicaStatus(r, ACTIVE)));
         && step.Next?
         && b == a.(reg := step.state,
                    phase := Starting(s, todo, answer == Lost, hadErr || answer == Lost || step.result.value != 1))
  }

  /** Without an error the watermark moves to the stamp that the snapshot has. */
  function Ended(c: Setup, a: Sys): Sys
    requires a.phase.Starting?
  {
    if a.phase.hadErr || c.me !in a.phase.snap.hosts then a.(phase := Idle)
    else a.(index := a.phase.snap.hosts[c.me].updated, base := a.phase.snap, phase := Idle)
  }

  ghost predicate Step(c: Setup, a: Sys, act: Act, b: Sys) {
    match act
    case Foreign(event) =>
      Possible(a.reg, event, c.prime) && Stepped(a.reg, event, b.reg) && b == a.(reg := b.reg)
    case Reboot => b == Booted(c, a.reg)
    case Begin => a.phase.Idle? && b == Begun(c, a)
    case Take(r, starts) => a.phase.Starting? && r in a.phase.todo && b == Taken(c, a, r, starts)
    case Report(answer, at) => a.phase.Reporting? && Reports(a, answer, at, b)
    case Finish => a.phase.Starting? && a.phase.todo == {} && b == Ended(c, a)
  }

  /******* What every step keeps *******/

  /** Either the replica is taken care of, or the host is due for another look. */
  ghost predicate Settles(s: State, t: State, me: string, r: nat, types: set<string>, running: set<Node>)
    requires r in s.replicas && me in s.hosts
  {
    Handled(s, r, types, running) || Stale(t, me, s.hosts[me].updated)
  }

  /** Some running node has the replica id. */
  ghost predicate Runs(running: set<Node>, r: nat) {
    exists n :: n in running && n.1 == r
  }

  lemma RunsMore(running: set<Node>, nodes: set<Node>, n: Node)
    requires n in nodes && nodes <= running
    ensures forall r :: Runs(running - (nodes - {n}), r) <==> Runs(running - nodes, r) || r == n.1
  {
    forall r | Runs(running - nodes, r) || r == n.1 ensures Runs(running - (nodes - {n}), r) {
      var x :| (x in running - nodes || x == n) && x.1 == r;
      assert x in running - (nodes - {n});
    }
  }

  /** Every wanted replica but those in `todo` is taken care of. */
  ghost predicate SettlesBut(s: State, t: State, me: string, todo: set<nat>, types: set<string>, running: set<Node>) {
    me in s.hosts && forall r :: Wanted(s, me, r) && r !in todo ==> Settles(s, t, me, r, types, running)
  }

  lemma SettlesLater(s: State, t: State, u: State, me: string, todo: set<nat>, types: set<string>, running: set<Node>,
                     running': set<Node>)
    requires SettlesBut(s, t, me, todo, types, running) && Later(t, u) && running <= running'
    requires s.hosts[me].updated <= t.index
    ensures SettlesBut(s, u, me, todo, types, running')
  {
    var w := s.hosts[me].updated;
    forall r | Wanted(s, me, r) && r !in todo ensures Settles(s, u, me, r, types, running') {
      assert Settles(s, t, me, r, types, running);
      assert Stale(t, me, w) ==> Stale(u, me, w);
    }
  }

  /** Once nothing is left to do, the snapshot can carry the watermark. */
  lemma SettledAnchors(s: State, t: State, me: string, types: set<string>, running: set<Node>)
    requires Inv(s) && Later(s, t) && SettlesBut(s, t, me, {}, types, running)
    ensures Anchored(t, s, me, s.hosts[me].updated, types, running)
  {
    var w := s.hosts[me].updated;
    assert QuietHosts(s, s);
    if !Stale(t, me, w) {
      forall r | Wanted(s, me, r) ensures Handled(s, r, types, running) {
        assert Settles(s, t, me, r, types, running);
      }
    }
  }

  /** A node that runs under the replica's id runs for the replica's shard. */
  lemma RunsAligned(s: State, me: string, r: nat, prime: nat, types: set<string>, running: set<Node>)
    requires Aligned(s, prime, running) && Wanted(s, me, r) && Runs(running, r)
    ensures (s.replicas[r].shardId, r) in running
  {
    var n :| n in running && n.1 == r;
    assert n == (n.0, r);
  }

  lemma SettlesOne(s: State, t: State, me: string, todo: set<nat>, r: nat, types: set<string>, running: set<Node>)
    requires SettlesBut(s, t, me, todo, types, running) && Wanted(s, me, r) && Settles(s, t, me, r, types, running)
    ensures SettlesBut(s, t, me, todo - {r}, types, running)
  {
  }

  lemma AlignedMore(s: State, t: State, prime: nat, running: set<Node>, me: string, r: nat)
    requires Inv(s) && Stays(s, t) && Aligned(t, prime, running) && Wanted(s, me, r)
    ensures Aligned(t, prime, running + {(s.replicas[r].shardId, r)})
  {
  }

  /** A tick under way: the registry has moved from the snapshot `s` to `t`, and without an error so
      far only `todo` is left. */
  ghost predicate UnderWay(c: Setup, s: State, t: State, todo: set<nat>, hadErr: bool, running: set<Node>) {
    && Inv(s) && c.me in s.hosts && Later(s, t)
    && (forall r :: r in todo ==> Wanted(s, c.me, r))
    && (hadErr || SettlesBut(s, t, c.me, todo, c.types, running))
  }

  ghost predicate AtWork(c: Setup, a: Sys) {
    match a.phase
    case Idle => true
    case Starting(s, todo, _, hadErr) =>
      UnderWay(c, s, a.reg, todo, hadErr, a.running) && s.hosts[c.me].updated > a.index
    case Reporting(s, todo, r, hadErr) =>
      UnderWay(c, s, a.reg, todo + {r}, hadErr, a.running) && s.hosts[c.me].updated > a.index
  }

  ghost predicate Safe(c: Setup, a: Sys) {
    && Inv(a.reg) && Aligned(a.reg, c.prime, a.running) && Stale(a.reg, c.me, 0)
    && Anchored(a.reg, a.base, c.me, a.index, c.types, a.running)
    && AtWork(c, a)
  }

  lemma UnderWayLater(c: Setup, s: State, t: State, u: State, todo: set<nat>, hadErr: bool, running: set<Node>,
                      running': set<Node>)
    requires UnderWay(c, s, t, todo, hadErr, running) && Later(t, u) && running <= running'
    ensures UnderWay(c, s, u, todo, hadErr, running')
  {
    LaterTrans(s, t, u);
    if !hadErr {
      SettlesLater(s, t, u, c.me, todo, c.types, running, running');
    }
  }

  lemma UnderWayOne(c: Setup, s: State, t: State, todo: set<nat>, r: nat, hadErr: bool, running: set<Node>)
    requires UnderWay(c, s, t, todo, hadErr, running) && r in todo
    requires hadErr || Settles(s, t, c.me, r, c.types, running)
    ensures UnderWay(c, s, t, todo - {r}, hadErr, running)
  {
    if !hadErr {
      SettlesOne(s, t, c.me, todo, r, c.types, running);
    }
  }

  lemma UnderWayFailed(c: Setup, s: State, t: State, todo: set<nat>, todo': set<nat>, hadErr: bool, running: set<Node>)
    requires UnderWay(c, s, t, todo, hadErr, running) && todo' <= todo
    ensures UnderWay(c, s, t, todo', true, running)
  {
  }

  /** The registry moves on and nodes are added; what the controller is at stays. */
  lemma SafeLater(c: Setup, a: Sys, t: State, running: set<Node>)
    requires Safe(c, a) && Later(a.reg, t) && a.running <= running && Aligned(t, c.prime, running)
    ensures Safe(c, a.(reg := t, running := running))
  {
    AnchoredLater(a.reg, t, a.base, c.me, a.index, c.types, a.running, running);
    assert Stale(t, c.me, 0);
    match a.phase
    case Idle =>
    case Starting(s, todo, _, hadErr) => UnderWayLater(c, s, a.reg, t, todo, hadErr, a.running, running);
    case Reporting(s, todo, r, hadErr) => UnderWayLater(c, s, a.reg, t, todo + {r}, hadErr, a.running, running);
  }

  lemma SafeForeign(c: Setup, a: Sys, event: Event, b: Sys)
    requires Safe(c, a) && Step(c, a, Foreign(event), b)
    ensures Safe(c, b)
  {
    PossibleLater(a.reg, event, c.prime, b.reg);
    AlignedLater(a.reg, b.reg, c.prime, a.running);
    SafeLater(c, a, b.reg, a.running);
  }

  lemma SafeBegin(c: Setup, a: Sys)
    requires Safe(c, a) && a.phase.Idle?
    ensures Safe(c, Begun(c, a))
  {
    LaterRefl(a.reg);
    forall r | Wanted(a.reg, c.me, r) && r !in Missing(a.reg, c.me, a.running)
      ensures Handled(a.reg, r, c.types, a.running)
    {
      RunsAligned(a.reg, c.me, r, c.prime, c.types, a.running);
    }
  }

  lemma SafeTake(c: Setup, a: Sys, r: nat, starts: bool)
    requires Safe(c, a) && a.phase.Starting? && r in a.phase.todo
    ensures Safe(c, Taken(c, a, r, starts))
  {
    var Starting(s, todo, failed, hadErr) := a.phase;
    if s.replicas[r].shardId !in s.shards {
      UnderWayFailed(c, s, a.reg, todo, todo - {r}, hadErr, a.running);
    } else if Unregistered(s, r, c.types) {
      UnderWayOne(c, s, a.reg, todo, r, hadErr, a.running);
    } else if StartFails(s, r, starts, failed) {
      UnderWayFailed(c, s, a.reg, todo, todo - {r}, hadErr, a.running);
    } else {
      SafeStarted(c, a, r, starts);
    }
  }

  lemma SafeStarted(c: Setup, a: Sys, r: nat, starts: bool)
    requires Safe(c, a) && a.phase.Starting? && r in a.phase.todo && Taken(c, a, r, starts).phase.Reporting?
    ensures Safe(c, Taken(c, a, r, starts))
  {
    var Starting(s, todo, failed, hadErr) := a.phase;
    var b := Taken(c, a, r, starts);
    LaterRefl(a.reg);
    AlignedMore(s, a.reg, c.prime, a.running, c.me, r);
    assert b.running == a.running || b.running == a.running + {(s.replicas[r].shardId, r)};
    SafeLater(c, a, a.reg, b.running);
    assert todo - {r} + {r} == todo;
    SafeRephased(c, a.(reg := a.reg, running := b.running), b.phase);
  }

  /** Only what the controller is at changes. */
  lemma SafeRephased(c: Setup, a: Sys, phase: Phase)
    requires Safe(c, a) && AtWork(c, a.(phase := phase))
    ensures Safe(c, a.(phase := phase))
  {
  }

  /** Reporting a replica active stamps its host. */
  lemma StatusCommit(s: State, r: nat, at: nat, prime: nat)
    requires Inv(s) && s.index < at < U64_LIMIT && PrimeKept(s, prime)
    ensures var step := Apply(s, Entry(at, ReplicaStatus(r, ACTIVE)));
            && step.Next? && Later(s, step.state) && PrimeKept(step.state, prime)
            && (step.result.value == 1 <==> r in s.replicas)
            && step.state.index == at
            && (r in s.replicas ==> Stale(step.state, s.replicas[r].hostId, s.index))
  {
    var e := Entry(at, ReplicaStatus(r, ACTIVE));
    StatusStamps(s, r, at);
    CommitLater(s, e);
    PrimeStep(s, e, prime);
  }

  /** The same replicas are to run, of the same types. */
  ghost predicate SameWants(s: State, t: State) {
    && t.replicas.Keys == s.replicas.Keys && t.shards.Keys == s.shards.Keys
    && (forall r :: r in s.replicas ==>
          t.replicas[r].hostId == s.replicas[r].hostId && t.replicas[r].shardId == s.replicas[r].shardId)
    && (forall k :: k in s.shards ==> t.shards[k].shardType == s.shards[k].shardType)
  }

  lemma StatusStamps(s: State, r: nat, at: nat)
    requires Inv(s) && s.index < at
    ensures var step := Apply(s, Entry(at, ReplicaStatus(r, ACTIVE)));
            && step.Next?
            && (step.result.value == 1 <==> r in s.replicas)
            && SameWants(s, step.state) && step.state.index == at
            && (r in s.replicas ==> Stale(step.state, s.replicas[r].hostId, s.index))
  {
  }

  lemma SafeReport(c: Setup, a: Sys, answer: Answer, at: nat, b: Sys)
    requires Safe(c, a) && a.phase.Reporting? && Reports(a, answer, at, b)
    ensures Safe(c, b)
  {
    var Reporting(s, todo, r, hadErr) := a.phase;
    if answer == Refused {
      UnderWayFailed(c, s, a.reg, todo + {r}, todo, hadErr, a.running);
    } else {
      StatusCommit(a.reg, r, at, c.prime);
      AlignedLater(a.reg, b.reg, c.prime, a.running);
      SafeLater(c, a, b.reg, a.running);
      SafeReported(c, a, b);
    }
  }

  lemma SafeReported(c: Setup, a: Sys, b: Sys)
    requires a.phase.Reporting? && Safe(c, a) && Safe(c, a.(reg := b.reg))
    requires a.phase.r in a.reg.replicas ==> Stale(b.reg, a.reg.replicas[a.phase.r].hostId, a.reg.index)
    ensures UnderWay(c, a.phase.snap, b.reg, a.phase.todo, true, a.running)
    ensures a.phase.r in a.reg.replicas ==> UnderWay(c, a.phase.snap, b.reg, a.phase.todo, a.phase.hadErr, a.running)
  {
    var Reporting(s, todo, r, hadErr) := a.phase;
    UnderWayFailed(c, s, b.reg, todo + {r}, todo, hadErr, a.running);
    if r in a.reg.replicas {
      assert Stays(s, a.reg) && Wanted(s, c.me, r) && a.reg.replicas[r].hostId == c.me;
      assert Stale(b.reg, c.me, s.hosts[c.me].updated);
      UnderWayOne(c, s, b.reg, todo + {r}, r, hadErr, a.running);
      UnderWayLess(c, s, b.reg, todo, todo + {r} - {r}, hadErr, a.running);
    }
  }

  lemma UnderWayLess(c: Setup, s: State, t: State, todo: set<nat>, less: set<nat>, hadErr: bool, running: set<Node>)
    requires UnderWay(c, s, t, less, hadErr, running) && less <= todo && forall r :: r in todo ==> Wanted(s, c.me, r)
    ensures UnderWay(c, s, t, todo, hadErr, running)
  {
  }

  lemma SafeFinish(c: Setup, a: Sys)
    requires Safe(c, a) && a.phase.Starting? && a.phase.todo == {}
    ensures Safe(c, Ended(c, a))
  {
    if !a.phase.hadErr {
      SettledAnchors(a.phase.snap, a.reg, c.me, c.types, a.running);
    }
  }

  lemma SafeStep(c: Setup, a: Sys, act: Act, b: Sys)
    requires Safe(c, a) && Step(c, a, act, b)
    ensures Safe(c, b)
  {
    match act
    case Foreign(event) => SafeForeign(c, a, event, b);
    case Reboot =>
    case Begin => SafeBegin(c, a);
    case Take(r, starts) => SafeTake(c, a, r, starts);
    case Report(answer, at) => SafeReport(c, a, answer, at, b);
    case Finish => SafeFinish(c, a);
  }

  /******* Whole lives *******/

  /** A step in which nobody interferes and nothing goes wrong. */
  predicate Calm(act: Act) {
    (act.Take? && act.starts) || (act.Report? && act.answer == Accepted)
  }

  /** A step within a tick. */
  predicate Within(act: Act) {
    act.Foreign? || act.Take? || act.Report?
  }

  ghost function Moves(c: Setup): (Sys, Act, Sys) -> bool {
    (a, act, b) => Step(c, a, act, b)
  }

  ghost function Works(c: Setup, calm: bool): (Sys, Act, Sys) -> bool {
    (a, act, b) => Step(c, a, act, b) && Within(act) && (calm ==> Calm(act))
  }

  /** From an empty registry, in any interleaving with other proposers, restarts and reboots. */
  ghost predicate IsLife(c: Setup, acts: seq<Act>, ss: seq<Sys>) {
    Chain(ss, acts, Moves(c)) && ss[0] == Booted(c, EMPTY)
  }

  lemma LifeSafe(c: Setup, acts: seq<Act>, ss: seq<Sys>, i: nat)
    requires IsLife(c, acts, ss) && i < |ss|
    ensures Safe(c, ss[i])
  {
    forall j | 0 <= j < |acts| && Safe(c, ss[j]) && Step(c, ss[j], acts[j], ss[j + 1]) ensures Safe(c, ss[j + 1]) {
      SafeStep(c, ss[j], acts[j], ss[j + 1]);
    }
    BootedSafe(c);
    ChainKeeps(ss, acts, Moves(c), a => Safe(c, a), 0, i);
  }

  lemma BootedSafe(c: Setup)
    ensures Safe(c, Booted(c, EMPTY))
  {
  }

  /** At every moment of every life: a watermark that has reached the host's stamp means that every
      replica assigned to the host runs, if its type is registered. */
  lemma AlwaysComplete(c: Setup, acts: seq<Act>, ss: seq<Sys>, i: nat)
    requires IsLife(c, acts, ss) && i < |ss|
    ensures Complete(ss[i].reg, c.me, ss[i].index, c.types, ss[i].running)
  {
    LifeSafe(c, acts, ss, i);
    AnchoredComplete(ss[i].reg, ss[i].base, c.me, ss[i].index, c.types, ss[i].running);
  }

  /** A tick that ends without an error has moved the watermark to the stamp it read; unless the host
      has been stamped again meanwhile, all it should run does run. */
  lemma FinishCatchesUp(c: Setup, acts: seq<Act>, ss: seq<Sys>, i: nat)
    requires IsLife(c, acts, ss) && i < |acts| && acts[i] == Finish && ss[i].phase.Starting? && !ss[i].phase.hadErr
    ensures c.me in ss[i].phase.snap.hosts && ss[i + 1].index == ss[i].phase.snap.hosts[c.me].updated > ss[i].index
    ensures Stale(ss[i + 1].reg, c.me, ss[i + 1].index)
            || Covered(ss[i + 1].reg, c.me, c.types, ss[i + 1].running)
  {
    LifeSafe(c, acts, ss, i);
    assert Linked(ss, acts, Moves(c), i);
    AlwaysComplete(c, acts, ss, i + 1);
  }

  /******* Calm ticks *******/

  /** The status says how to start the replica, and there are members enough to bootstrap with. */
  predicate Startable(s: State, r: nat)
    requires r in s.replicas
  {
    var row := s.replicas[r];
    && row.shardId in s.shards && Known(row.status)
    && (row.status == BOOTSTRAPPING ==> |Members(s.replicas, row.shardId)| >= 3)
  }

  ghost predicate AllStartable(s: State, me: string) {
    forall r :: Wanted(s, me, r) ==> Startable(s, r)
  }

  /** Where a tick on `s` in which nothing goes wrong has come to. */
  ghost predicate Progress(c: Setup, s: State, b: Sys) {
    && SameWants(s, b.reg)
    && match b.phase
       case Idle => false
       case Starting(snap, todo, _, hadErr) =>
         && snap == s && !hadErr && (forall r :: r in todo ==> Wanted(s, c.me, r))
         && forall r :: Wanted(s, c.me, r) && r !in todo ==> Handled(s, r, c.types, b.running)
       case Reporting(snap, todo, x, hadErr) =>
         && snap == s && !hadErr && (forall r :: r in todo ==> Wanted(s, c.me, r)) && Wanted(s, c.me, x)
         && forall r :: Wanted(s, c.me, r) && r !in todo ==> Handled(s, r, c.types, b.running)
  }

  lemma ProgressStep(c: Setup, s: State, a: Sys, act: Act, b: Sys)
    requires AllStartable(s, c.me) && Safe(c, a) && Progress(c, s, a) && Step(c, a, act, b) && Calm(act)
    ensures Progress(c, s, b)
  {
    if act.Take? {
      ProgressTake(c, s, a, act.r);
    } else {
      ProgressReport(c, s, a, act.at, b);
    }
  }

  lemma ProgressTake(c: Setup, s: State, a: Sys, r: nat)
    requires Progress(c, s, a) && a.phase.Starting? && r in a.phase.todo && Startable(s, r)
    ensures Progress(c, s, Taken(c, a, r, true))
  {
  }

  lemma ProgressReport(c: Setup, s: State, a: Sys, at: nat, b: Sys)
    requires Inv(a.reg) && Progress(c, s, a) && a.phase.Reporting? && Reports(a, Accepted, at, b)
    ensures Progress(c, s, b)
  {
    StatusStamps(a.reg, a.phase.r, at);
  }

  lemma CalmReaches(c: Setup, s: State, a: Sys, b: Sys)
    requires Safe(c, a) && Progress(c, s, a) && AllStartable(s, c.me) && Reaches(Works(c, true), a, b)
    ensures Safe(c, b) && Progress(c, s, b)
  {
    forall x, act, y | Safe(c, x) && Progress(c, s, x) && Works(c, true)(x, act, y)
      ensures Safe(c, y) && Progress(c, s, y)
    {
      SafeStep(c, x, act, y);
      ProgressStep(c, s, x, act, y);
    }
    ReachesKeeps(Works(c, true), x => Safe(c, x) && Progress(c, s, x), a, b);
  }

  ghost predicate Surveyed(c: Setup, a: Sys) {
    Safe(c, a) && a.phase == Starting(a.reg, Missing(a.reg, c.me, a.running), false, false)
  }

  lemma SurveyedProgress(c: Setup, a: Sys)
    requires Surveyed(c, a)
    ensures Progress(c, a.reg, a)
  {
    forall r | Wanted(a.reg, c.me, r) && r !in Missing(a.reg, c.me, a.running)
      ensures Handled(a.reg, r, c.types, a.running)
    {
      RunsAligned(a.reg, c.me, r, c.prime, c.types, a.running);
    }
  }

  lemma ProgressDone(c: Setup, s: State, b: Sys)
    requires Progress(c, s, b) && b.phase.Starting? && b.phase.todo == {}
    ensures Covered(s, c.me, c.types, b.running) && Covered(b.reg, c.me, c.types, b.running)
  {
    forall r | Wanted(b.reg, c.me, r) ensures Handled(b.reg, r, c.types, b.running) {
      assert Wanted(s, c.me, r) && Handled(s, r, c.types, b.running);
    }
  }

  /** The acts from `i` to `j` are those of one tick: look, start and report without trouble, finish. */
  ghost predicate CalmTick(acts: seq<Act>, i: nat, j: nat) {
    && i < j < |acts| && acts[i] == Begin && acts[j] == Finish
    && forall m :: i < m < j ==> Calm(acts[m])
  }

  /** A tick has something to finish only if it was due. */
  lemma TickDue(c: Setup, acts: seq<Act>, ss: seq<Sys>, i: nat, j: nat)
    requires IsLife(c, acts, ss) && CalmTick(acts, i, j)
    ensures c.me in ss[i].reg.hosts && ss[i].reg.hosts[c.me].updated > ss[i].index
    ensures ss[i].phase.Idle? && ss[i + 1] == Begun(c, ss[i]) && ss[i + 1].phase.Starting?
  {
    assert Linked(ss, acts, Moves(c), i);
    assert Linked(ss, acts, Moves(c), i + 1);
  }

  /** In any life: a tick that is not disturbed and has only startable replicas to deal with
      starts all of them and moves the watermark to the stamp it read. */
  lemma CalmTickCovers(c: Setup, acts: seq<Act>, ss: seq<Sys>, i: nat, j: nat)
    requires IsLife(c, acts, ss) && CalmTick(acts, i, j)
    requires AllStartable(ss[i].reg, c.me)
    ensures c.me in ss[i].reg.hosts && ss[j + 1].phase.Idle? && ss[j + 1].index == ss[i].reg.hosts[c.me].updated
    ensures Covered(ss[i].reg, c.me, c.types, ss[j + 1].running)
    ensures Covered(ss[j + 1].reg, c.me, c.types, ss[j + 1].running)
  {
    TickDue(c, acts, ss, i, j);
    LifeSafe(c, acts, ss, i + 1);
    SurveyedProgress(c, ss[i + 1]);
    CalmAlong(c, acts, ss, i, j);
    assert Linked(ss, acts, Moves(c), j);
    ProgressDone(c, ss[i].reg, ss[j]);
  }

  lemma CalmAlong(c: Setup, acts: seq<Act>, ss: seq<Sys>, i: nat, j: nat)
    requires IsLife(c, acts, ss) && CalmTick(acts, i, j)
    requires AllStartable(ss[i].reg, c.me) && Progress(c, ss[i].reg, ss[i + 1])
    ensures Progress(c, ss[i].reg, ss[j])
  {
    var s, inv := ss[i].reg, (a: Sys) => Safe(c, a) && Progress(c, ss[i].reg, a);
    LifeSafe(c, acts, ss, i + 1);
    forall m | i + 1 <= m < j && inv(ss[m]) && Moves(c)(ss[m], acts[m], ss[m + 1]) ensures inv(ss[m + 1]) {
      SafeStep(c, ss[m], acts[m], ss[m + 1]);
      ProgressStep(c, s, ss[m], acts[m], ss[m + 1]);
    }
    ChainKeeps(ss, acts, Moves(c), inv, i + 1, j);
  }

  /** Once all that should run does run, an undisturbed tick leaves the watermark at the host's stamp:
      the controller has caught up, and stays silent until the host is stamped again. */
  lemma CoveredTickCatchesUp(c: Setup, acts: seq<Act>, ss: seq<Sys>, i: nat, j: nat)
    requires IsLife(c, acts, ss) && CalmTick(acts, i, j)
    requires Covered(ss[i].reg, c.me, c.types, ss[i].running)
    ensures ss[j + 1].reg == ss[i].reg && ss[j + 1].running == ss[i].running
    ensures c.me in ss[i].reg.hosts && ss[j + 1].index == ss[j + 1].reg.hosts[c.me].updated
  {
    TickDue(c, acts, ss, i, j);
    IdleAlong(c, acts, ss, i, j, j);
    assert Linked(ss, acts, Moves(c), j);
  }

  /** Nothing has been done, as everything left is of an unregistered type. */
  ghost predicate Untouched(c: Setup, a: Sys, b: Sys) {
    && b.phase.Starting? && b == a.(phase := b.phase) && b.phase.snap == a.reg && !b.phase.hadErr
    && forall r :: r in b.phase.todo ==> Wanted(a.reg, c.me, r) && Unregistered(a.reg, r, c.types)
  }

  lemma {:induction false} IdleAlong(c: Setup, acts: seq<Act>, ss: seq<Sys>, i: nat, j: nat, m: nat)
    requires IsLife(c, acts, ss) && CalmTick(acts, i, j) && i < m <= j
    requires Covered(ss[i].reg, c.me, c.types, ss[i].running) && ss[i + 1].phase.Starting?
    ensures Untouched(c, ss[i], ss[m])
  {
    assert Linked(ss, acts, Moves(c), m - 1);
    if m > i + 1 {
      IdleAlong(c, acts, ss, i, j, m - 1);
    } else {
      forall r | r in ss[m].phase.todo ensures Unregistered(ss[i].reg, r, c.types) {
        assert Handled(ss[i].reg, r, c.types, ss[i].running);
      }
    }
  }

  /******* What is started, and what is not *******/

  /** The registry lets the controller start the replica: its shard is stored, its type registered here, and
      its status is to join, to go on, or to bootstrap a shard that has three voting members. */
  ghost predicate MayStart(c: Setup, s: State, r: nat) {
    && r in s.replicas && s.replicas[r].shardId in s.shards
    && s.shards[s.replicas[r].shardId].shardType in c.types
    && (|| s.replicas[r].status == "joining" || s.replicas[r].status == "active"
        || (s.replicas[r].status == "bootstrapping" && |Members(s.replicas, s.replicas[r].shardId)| >= 3))
  }

  /** The controller cannot deal with the replica: its shard is not stored, or it is to bootstrap a shard
      that has not got three voting members. */
  ghost predicate Hindered(c: Setup, s: State, r: nat) {
    && r in s.replicas
    && (s.replicas[r].shardId in s.shards ==>
          && s.shards[s.replicas[r].shardId].shardType in c.types
          && s.replicas[r].status == "bootstrapping" && |Members(s.replicas, s.replicas[r].shardId)| < 3)
  }

  function NodeOf(s: State, r: nat): Node
    requires r in s.replicas
  {
    (s.replicas[r].shardId, r)
  }

  /** Taking a replica starts its node if and only if it may be started and the start succeeds; one that
      is hindered makes the tick fail. */
  lemma TakeStartsExactly(c: Setup, a: Sys, r: nat, starts: bool)
    requires a.phase.Starting? && r in a.phase.snap.replicas
    ensures var s, b := a.phase.snap, Taken(c, a, r, starts);
            && b.running == (if starts && MayStart(c, s, r) then a.running + {NodeOf(s, r)} else a.running)
            && (MayStart(c, s, r) ==> if starts then b.phase.Reporting? else b.phase.Starting? && b.phase.hadErr)
            && (Hindered(c, s, r) ==> b.phase.Starting? && b.phase.hadErr)
            && (b.phase.Starting? || b.phase.Reporting?) && b.phase.snap == s && b.phase.todo == a.phase.todo - {r}
            && (a.phase.hadErr ==> b.phase.hadErr)
  {
  }

  /** At every moment of every life a node is added by a successful start of a replica that may be started,
      and by nothing else; only a reboot removes nodes. */
  lemma StartsExactly(c: Setup, acts: seq<Act>, ss: seq<Sys>, i: nat)
    requires IsLife(c, acts, ss) && i < |acts|
    ensures match acts[i]
            case Reboot => ss[i + 1].running == {(0, c.prime)}
            case Take(r, starts) =>
              && ss[i].phase.Starting? && Wanted(ss[i].phase.snap, c.me, r)
              && ss[i + 1].running == ss[i].running +
                 if starts && MayStart(c, ss[i].phase.snap, r) then {NodeOf(ss[i].phase.snap, r)} else {}
            case _ => ss[i + 1].running == ss[i].running
  {
    LifeSafe(c, acts, ss, i);
    assert Linked(ss, acts, Moves(c), i);
    if acts[i].Take? {
      TakeStartsExactly(c, ss[i], acts[i].r, acts[i].starts);
    }
  }

  /** Where a tick on `s` that found `missing` has come to. */
  ghost predicate Strict(c: Setup, s: State, running: set<Node>, missing: set<nat>, b: Sys) {
    && !b.phase.Idle? && b.phase.snap == s && b.phase.todo <= missing
    && (forall n :: n in b.running && n !in running ==> n.1 in missing && MayStart(c, s, n.1) && n == NodeOf(s, n.1))
    && (forall r :: r in missing && r !in b.phase.todo ==>
          b.phase.hadErr || (!Hindered(c, s, r) && (MayStart(c, s, r) ==> NodeOf(s, r) in b.running)))
  }

  lemma StrictStep(c: Setup, s: State, running: set<Node>, missing: set<nat>, a: Sys, act: Act, b: Sys)
    requires missing <= s.replicas.Keys && Strict(c, s, running, missing, a) && Step(c, a, act, b) && Within(act)
    ensures Strict(c, s, running, missing, b)
  {
    match act
    case Foreign(_) =>
    case Take(r, starts) => TakeStartsExactly(c, a, r, starts);
    case Report(_, _) =>
  }

  lemma StrictReaches(c: Setup, s: State, running: set<Node>, missing: set<nat>, a: Sys, b: Sys)
    requires missing <= s.replicas.Keys && Strict(c, s, running, missing, a) && Reaches(Works(c, false), a, b)
    ensures Strict(c, s, running, missing, b)
  {
    forall x, act, y | Strict(c, s, running, missing, x) && Works(c, false)(x, act, y)
      ensures Strict(c, s, running, missing, y)
    {
      StrictStep(c, s, running, missing, x, act, y);
    }
    ReachesKeeps(Works(c, false), x => Strict(c, s, running, missing, x), a, b);
  }

  /** A replica that was missing, may be started and is not left to do runs, and is active unless its report
      is still to come. */
  ghost predicate UpAndActive(c: Setup, s: State, missing: set<nat>, b: Sys, r: nat)
    requires !b.phase.Idle?
  {
    r in missing && r !in b.phase.todo && MayStart(c, s, r) ==>
      && NodeOf(s, r) in b.running && r in b.reg.replicas
      && ((b.phase.Reporting? && b.phase.r == r) || b.reg.replicas[r].status == "active")
  }

  /** What a calm tick on `s` has done. */
  ghost predicate Reported(c: Setup, s: State, missing: set<nat>, b: Sys) {
    && !b.phase.Idle? && b.phase.snap == s && Inv(b.reg) && b.reg.replicas.Keys == s.replicas.Keys
    && (b.phase.Reporting? ==> b.phase.r in s.replicas)
    && (forall r {:trigger UpAndActive(c, s, missing, b, r)} :: UpAndActive(c, s, missing, b, r))
  }

  lemma StatusSets(s: State, r: nat, at: nat)
    requires Inv(s) && s.index < at < U64_LIMIT && r in s.replicas
    ensures var t := Apply(s, Entry(at, ReplicaStatus(r, ACTIVE))).state;
            && Inv(t) && t.replicas == s.replicas[r := s.replicas[r].(status := "active")]
  {
    StatusStamps(s, r, at);
    StepInv(s, Entry(at, ReplicaStatus(r, ACTIVE)));
  }

  lemma ReportedTake(c: Setup, s: State, missing: set<nat>, a: Sys, r: nat)
    requires Reported(c, s, missing, a) && a.phase.Starting? && r in s.replicas
    ensures Reported(c, s, missing, Taken(c, a, r, true))
  {
    TakeStartsExactly(c, a, r, true);
    TakeReports(c, a, r);
    forall x ensures UpAndActive(c, s, missing, Taken(c, a, r, true), x) {
      assert UpAndActive(c, s, missing, a, x);
    }
  }

  lemma ReportedReport(c: Setup, s: State, missing: set<nat>, a: Sys, at: nat, b: Sys)
    requires Reported(c, s, missing, a) && a.phase.Reporting? && Reports(a, Accepted, at, b)
    ensures Reported(c, s, missing, b)
  {
    StatusSets(a.reg, a.phase.r, at);
    forall x ensures UpAndActive(c, s, missing, b, x) {
      assert UpAndActive(c, s, missing, a, x);
    }
  }

  lemma ReportedStep(c: Setup, s: State, missing: set<nat>, a: Sys, act: Act, b: Sys)
    requires Reported(c, s, missing, a) && Step(c, a, act, b) && Calm(act)
    requires act.Take? ==> act.r in s.replicas
    ensures Reported(c, s, missing, b)
  {
    if act.Take? {
      ReportedTake(c, s, missing, a, act.r);
    } else {
      ReportedReport(c, s, missing, a, act.at, b);
    }
  }

  lemma TakeReports(c: Setup, a: Sys, r: nat)
    requires a.phase.Starting? && r in a.phase.snap.replicas
    ensures var b := Taken(c, a, r, true); b.reg == a.reg && (b.phase.Reporting? ==> b.phase.r == r)
  {
  }

  lemma ReportedReaches(c: Setup, s: State, missing: set<nat>, a: Sys, b: Sys)
    requires Safe(c, a) && Reported(c, s, missing, a) && Reaches(Works(c, true), a, b)
    ensures Reported(c, s, missing, b)
  {
    forall x, act, y | Safe(c, x) && Reported(c, s, missing, x) && Works(c, true)(x, act, y)
      ensures Safe(c, y) && Reported(c, s, missing, y)
    {
      SafeStep(c, x, act, y);
      ReportedStep(c, s, missing, x, act, y);
    }
    ReachesKeeps(Works(c, true), x => Safe(c, x) && Reported(c, s, missing, x), a, b);
  }

  /** In any life, a calm tick leaves every replica active that was missing and may be started. */
  lemma CalmTickReports(c: Setup, acts: seq<Act>, ss: seq<Sys>, i: nat, j: nat, r: nat)
    requires IsLife(c, acts, ss) && CalmTick(acts, i, j)
    requires r in Missing(ss[i].reg, c.me, ss[i].running) && MayStart(c, ss[i].reg, r)
    ensures r in ss[j + 1].reg.replicas && ss[j + 1].reg.replicas[r].status == "active"
    ensures NodeOf(ss[i].reg, r) in ss[j + 1].running
  {
    TickDue(c, acts, ss, i, j);
    LifeSafe(c, acts, ss, i + 1);
    ReportedAlong(c, acts, ss, i, j);
    assert UpAndActive(c, ss[i].reg, ss[i + 1].phase.todo, ss[j], r);
    assert Linked(ss, acts, Moves(c), j);
  }

  lemma SurveyedStart(c: Setup, a: Sys)
    requires Surveyed(c, a)
    ensures Reported(c, a.reg, a.phase.todo, a) && Strict(c, a.reg, a.running, a.phase.todo, a)
  {
  }

  lemma ReportedAlong(c: Setup, acts: seq<Act>, ss: seq<Sys>, i: nat, j: nat)
    requires IsLife(c, acts, ss) && CalmTick(acts, i, j)
    requires ss[i].phase.Idle? && ss[i + 1] == Begun(c, ss[i]) && ss[i + 1].phase.Starting?
    ensures Reported(c, ss[i].reg, ss[i + 1].phase.todo, ss[j])
  {
    var s, missing := ss[i].reg, ss[i + 1].phase.todo;
    var inv := (a: Sys) => Safe(c, a) && Reported(c, s, missing, a);
    LifeSafe(c, acts, ss, i + 1);
    SurveyedStart(c, ss[i + 1]);
    forall m | i + 1 <= m < j && inv(ss[m]) && Moves(c)(ss[m], acts[m], ss[m + 1]) ensures inv(ss[m + 1]) {
      SafeStep(c, ss[m], acts[m], ss[m + 1]);
      ReportedStep(c, s, missing, ss[m], acts[m], ss[m + 1]);
    }
    ChainKeeps(ss, acts, Moves(c), inv, i + 1, j);
  }

  /******* The code *******/

  /** What others do before a start, whether the start succeeds, what others do before the proposal,
      and what becomes of it. */
  datatype Turn = Turn(before: seq<Event>, starts: bool, between: seq<Event>, answer: Answer)

  /** Nobody interferes, the start succeeds and the report is accepted. */
  predicate Smooth(turn: Turn) {
    turn.before == [] && turn.between == [] && turn.starts && turn.answer == Accepted
  }

  lemma ReachesSafe(c: Setup, calm: bool, a: Sys, b: Sys)
    requires Safe(c, a) && Reaches(Works(c, calm), a, b)
    ensures Safe(c, b)
  {
    forall x, act, y | Safe(c, x) && Works(c, calm)(x, act, y) ensures Safe(c, y) {
      SafeStep(c, x, act, y);
    }
    ReachesKeeps(Works(c, calm), x => Safe(c, x), a, b);
  }

  /** One more event, if it can happen. */
  lemma ForeignOn(c: Setup, a: Sys, b: Sys, event: Event, t: State)
    requires Safe(c, a) && Reaches(Works(c, false), a, b)
    requires Possible(b.reg, event, c.prime) && Stepped(b.reg, event, t)
    ensures Reaches(Works(c, false), a, b.(reg := t))
  {
    var d := b.(reg := t);
    assert Step(c, b, Foreign(event), d) && Within(Foreign(event));
    assert Works(c, false)(b, Foreign(event), d);
    ReachesOn(Works(c, false), a, b, Foreign(event), d);
  }

  function StepTo(s: State, event: Event): State
    requires event.Commit? ==> Apply(s, event.entry).Next?
  {
    match event
    case Restart(_) => Recovered(s)
    case Commit(e) => Apply(s, e).state
  }

  /** Let others go on for a while. Events that cannot happen are skipped. */
  method Others(c: Setup, reg: State, events: seq<Event>, ghost a: Sys) returns (t: State)
    requires Safe(c, a) && a.reg == reg
    ensures Reaches(Works(c, false), a, a.(reg := t))
    ensures events == [] ==> t == reg
  {
    t := reg;
    ReachesRefl(Works(c, false), a);
    assert a.(reg := t) == a;
    for i := 0 to |events|
      invariant Reaches(Works(c, false), a, a.(reg := t))
      invariant i == 0 ==> t == reg
    {
      if Possible(t, events[i], c.prime) {
        ReachesSafe(c, false, a, a.(reg := t));
        RecoveredSteps(t);
        ForeignOn(c, a, a.(reg := t), events[i], StepTo(t, events[i]));
        t := StepTo(t, events[i]);
      }
    }
  }

  lemma RecoveredSteps(s: State)
    requires Inv(s)
    ensures forall n :: Stepped(s, Restart(n), Recovered(s))
  {
  }

  lemma OthersCalm(c: Setup, calm: bool, a: Sys, t: State)
    requires Reaches(Works(c, false), a, a.(reg := t)) && (calm ==> t == a.reg)
    ensures Reaches(Works(c, calm), a, a.(reg := t))
  {
    if calm {
      ReachesRefl(Works(c, calm), a);
      assert a.(reg := t) == a;
    }
  }

  /** `t` is the registry after the report; `failed` is the error of the call, `value` the answer. */
  ghost predicate Answers(reg: State, r: nat, answer: Answer, at: nat, t: State, failed: bool, value: nat) {
    if answer == Refused then t == reg && failed
    else
      && reg.index < at < U64_LIMIT && Apply(reg, Entry(at, ReplicaStatus(r, ACTIVE))).Next?
      && t == Apply(reg, Entry(at, ReplicaStatus(r, ACTIVE))).state
      && (failed <==> answer == Lost)
      && (!failed ==> value == Apply(reg, Entry(at, ReplicaStatus(r, ACTIVE))).result.value)
  }

  method Propose(reg: State, r: nat, answer: Answer) returns (t: State, failed: bool, value: nat, ghost sent: Answer)
    requires Inv(reg)
    ensures Answers(reg, r, sent, reg.index + 1, t, failed, value) && t.index <= reg.index + 1
    ensures reg.index + 1 < U64_LIMIT ==> sent == answer
  {
    t, failed, value, sent := reg, true, 0, Refused;
    if answer != Refused && reg.index + 1 < U64_LIMIT {
      StatusStamps(reg, r, reg.index + 1);
      var step := Apply(reg, Entry(reg.index + 1, ReplicaStatus(r, ACTIVE)));
      t, sent := step.state, answer;
      if answer == Accepted {
        failed, value := false, step.result.value;
      }
    }
  }

  lemma ReportOn(c: Setup, calm: bool, a: Sys, b: Sys, answer: Answer, at: nat, t: State, failed: bool, value: nat)
    requires Reaches(Works(c, calm), a, b) && b.phase.Reporting? && (calm ==> answer == Accepted)
    requires Answers(b.reg, b.phase.r, answer, at, t, failed, value)
    ensures Reaches(Works(c, calm), a,
              b.(reg := t, phase := Starting(b.phase.snap, b.phase.todo, failed, b.phase.hadErr || failed || value != 1)))
  {
    var d := b.(reg := t, phase := Starting(b.phase.snap, b.phase.todo, failed, b.phase.hadErr || failed || value != 1));
    assert Reports(b, answer, at, d);
    assert Step(c, b, Report(answer, at), d) && Within(Report(answer, at)) && (calm ==> Calm(Report(answer, at)));
    assert Works(c, calm)(b, Report(answer, at), d);
    ReachesOn(Works(c, calm), a, b, Report(answer, at), d);
  }

  /** Handle one missing replica of the snapshot `s` while the registry has moved on to `reg`. */
  method Process(c: Setup, s: State, reg: State, r: nat, running: set<Node>, turn: Turn, failed: bool, hadErr: bool,
                 ghost a: Sys, ghost calm: bool)
    returns (t: State, running': set<Node>, failed': bool, hadErr': bool)
    requires Safe(c, a) && a.phase.Starting? && r in a.phase.todo
    requires a == a.(reg := reg, running := running, phase := Starting(s, a.phase.todo, failed, hadErr))
    requires calm ==> Smooth(turn) && reg.index + 1 < U64_LIMIT
    ensures Reaches(Works(c, calm), a,
              a.(reg := t, running := running', phase := Starting(s, a.phase.todo - {r}, failed', hadErr')))
    ensures running <= running' && (calm ==> t.index <= reg.index + 1)
    ensures Unregistered(s, r, c.types) ==> t == reg && running' == running && hadErr' == hadErr
  {
    t, running', failed', hadErr' := reg, running, failed, hadErr;
    var row := s.replicas[r];
    if row.shardId !in s.shards {
      hadErr' := true;
      TakeOn(c, calm, a, a, r, true);
      return;
    }
    if s.shards[row.shardId].shardType !in c.types {
      TakeOn(c, calm, a, a, r, true);
      return;
    }
    t := Others(c, t, turn.before, a);
    OthersCalm(c, calm, a, t);
    ghost var b := a.(reg := t);
    ReachesSafe(c, calm, a, b);
    failed' := StartFails(s, r, turn.starts, failed);
    TakeOn(c, calm, a, b, r, turn.starts);
    if failed' {
      hadErr' := true;
      return;
    }
    if Known(row.status) {
      running' := running + {(row.shardId, r)};
    }
    ghost var d := Taken(c, b, r, turn.starts);
    assert d.running == running';
    t, failed', hadErr' := Close(c, t, r, turn, hadErr, a, d, calm);
  }

  lemma TakeOn(c: Setup, calm: bool, a: Sys, b: Sys, r: nat, starts: bool)
    requires b == a || Reaches(Works(c, calm), a, b)
    requires b.phase.Starting? && r in b.phase.todo && (calm ==> starts)
    ensures Reaches(Works(c, calm), a, Taken(c, b, r, starts))
  {
    ReachesRefl(Works(c, calm), a);
    assert Step(c, b, Take(r, starts), Taken(c, b, r, starts)) && Within(Take(r, starts)) && (calm ==> Calm(Take(r, starts)));
    assert Works(c, calm)(b, Take(r, starts), Taken(c, b, r, starts));
    ReachesOn(Works(c, calm), a, b, Take(r, starts), Taken(c, b, r, starts));
  }

  /** Others go on, and the started replica is reported. */
  method Close(c: Setup, reg: State, r: nat, turn: Turn, hadErr: bool, ghost a: Sys, ghost d: Sys, ghost calm: bool)
    returns (t: State, failed: bool, hadErr': bool)
    requires Safe(c, a) && Reaches(Works(c, calm), a, d)
    requires d.reg == reg && d.phase.Reporting? && d.phase.r == r && d.phase.hadErr == hadErr
    requires calm ==> Smooth(turn) && reg.index + 1 < U64_LIMIT
    ensures Reaches(Works(c, calm), a, d.(reg := t, phase := Starting(d.phase.snap, d.phase.todo, failed, hadErr')))
    ensures calm ==> t.index <= reg.index + 1
  {
    ReachesSafe(c, calm, a, d);
    t := Others(c, reg, turn.between, d);
    OthersCalm(c, calm, d, t);
    ghost var e := d.(reg := t);
    ReachesSafe(c, calm, d, e);
    ReachesTrans(Works(c, calm), a, d, e);
    var value;
    ghost var sent;
    ghost var was := t;
    t, failed, value, sent := Propose(t, r, turn.answer);
    hadErr' := hadErr || failed || value != 1;
    ReportOn(c, calm, a, e, sent, was.index + 1, t, failed, value);
  }

  /** The replicas that should run here, each with whether it does. Nodes go by replica id alone. */
  method Survey(s: State, me: string, running: set<Node>) returns (found: map<nat, bool>)
    ensures forall r :: Wanted(s, me, r) ==> r in found
    ensures forall r :: r in found && !found[r] ==> Wanted(s, me, r)
    ensures forall r :: r in found ==> (found[r] <==> r in s.replicas && Runs(running, r))
  {
    found := map[];
    var rest := s.replicas.Keys;
    while rest != {}
      invariant rest <= s.replicas.Keys
      invariant forall r :: r in found <==> Wanted(s, me, r) && r !in rest
      invariant forall r :: r in found ==> !found[r]
    {
      var r :| r in rest;
      if s.replicas[r].hostId == me && s.replicas[r].shardId > 0 {
        found := found[r := false];
      }
      rest := rest - {r};
    }
    var nodes := running;
    while nodes != {}
      invariant nodes <= running
      invariant forall r :: Wanted(s, me, r) ==> r in found
      invariant forall r :: r in found && !found[r] ==> Wanted(s, me, r)
      invariant forall r :: r in found ==> (found[r] <==> r in s.replicas && Runs(running - nodes, r))
    {
      var n :| n in nodes;
      if n.1 in s.replicas {
        found := found[n.1 := true];
      }
      RunsMore(running, nodes, n);
      nodes := nodes - {n};
    }
  }

  function TurnAt(turns: seq<Turn>, i: nat): Turn {
    if i < |turns| then turns[i] else Turn([], true, [], Accepted)
  }

  /** Nothing goes wrong, and there are log positions for all the reports. */
  ghost predicate AllSmooth(s: State, turns: seq<Turn>) {
    (forall i :: 0 <= i < |turns| ==> Smooth(turns[i])) && s.index + |s.replicas| < U64_LIMIT
  }

  lemma CoveredAt(s: State, me: string, r: nat, types: set<string>, running: set<Node>)
    requires Wanted(s, me, r) && (s.replicas[r].shardId, r) !in running
    ensures Covered(s, me, types, running) ==> Unregistered(s, r, types)
  {
  }

  /** Nothing has been done, and nothing needed to be. */
  ghost predicate Unmoved(s: State, t: State, hadErr: bool, running: set<Node>, running': set<Node>) {
    t == s && running' == running && !hadErr
  }

  /** Start the missing replicas of `s`, in any order. */
  method StartAll(c: Setup, s: State, running: set<Node>, missing: set<nat>, turns: seq<Turn>, ghost a: Sys)
    returns (t: State, running': set<Node>, failed: bool, hadErr: bool)
    requires Surveyed(c, a) && a.reg == s && a.running == running && a.phase.todo == missing
    ensures Reaches(Works(c, AllSmooth(s, turns)), a,
              a.(reg := t, running := running', phase := Starting(s, {}, failed, hadErr)))
    ensures running <= running'
    ensures Covered(s, c.me, c.types, running) ==> Unmoved(s, t, hadErr, running, running')
  {
    t, running', failed, hadErr := s, running, false, false;
    var todo, i := missing, 0;
    ghost var calm, room := AllSmooth(s, turns), |missing|;
    SubsetSize(missing, s.replicas.Keys);
    assert |s.replicas.Keys| == |s.replicas|;
    ReachesRefl(Works(c, calm), a);
    ghost var b := a;
    while todo != {}
      invariant todo <= missing && running <= running'
      invariant b == a.(reg := t, running := running', phase := Starting(s, todo, failed, hadErr))
      invariant Reaches(Works(c, calm), a, b)
      invariant calm ==> t.index + |todo| <= s.index + room
      invariant Covered(s, c.me, c.types, running) ==> Unmoved(s, t, hadErr, running, running')
    {
      var r :| r in todo;
      MissingAt(s, c.me, r, c.types, running);
      ReachesSafe(c, calm, a, b);
      assert |todo - {r}| == |todo| - 1;
      t, running', failed, hadErr := Process(c, s, t, r, running', TurnAt(turns, i), failed, hadErr, b, calm);
      todo, i := todo - {r}, i + 1;
      ghost var d := a.(reg := t, running := running', phase := Starting(s, todo, failed, hadErr));
      ReachesTrans(Works(c, calm), a, b, d);
      b := d;
    }
  }

  lemma MissingAt(s: State, me: string, r: nat, types: set<string>, running: set<Node>)
    requires r in Missing(s, me, running)
    ensures Covered(s, me, types, running) ==> Unregistered(s, r, types)
  {
    assert (s.replicas[r].shardId, r) !in running;
    CoveredAt(s, me, r, types, running);
  }

  /** Start everything that the survey of `s` found missing. */
  method StartMissing(c: Setup, s: State, running: set<Node>, turns: seq<Turn>, ghost a: Sys)
    returns (t: State, running': set<Node>, ghost failed: bool, hadErr: bool)
    requires Surveyed(c, a) && a.reg == s && a.running == running
    ensures Reaches(Works(c, false), a, a.(reg := t, running := running', phase := Starting(s, {}, failed, hadErr)))
    ensures running <= running'
    ensures Covered(s, c.me, c.types, running) ==> Unmoved(s, t, hadErr, running, running')
    ensures AllSmooth(s, turns) && AllStartable(s, c.me) ==> !hadErr && Covered(s, c.me, c.types, running')
    ensures AllSmooth(s, turns) ==> AllActive(c, s, running, t, running')
    ensures OnlyStartable(c, s, running, running') && (hadErr || AllStarted(c, s, running, running'))
  {
    var found := Survey(s, c.me, running);
    var todo := set r | r in found && !found[r];
    assert todo == Missing(s, c.me, running);
    t, running', failed, hadErr := StartAll(c, s, running, todo, turns, a);
    ghost var b := a.(reg := t, running := running', phase := Starting(s, {}, failed, hadErr));
    StartedAll(c, AllSmooth(s, turns), a, b);
    StartedStrictly(c, AllSmooth(s, turns), a, b);
  }

  /** Only missing replicas that may be started have been started. */
  ghost predicate OnlyStartable(c: Setup, s: State, running: set<Node>, running': set<Node>) {
    forall n :: n in running' && n !in running ==>
      n.1 in Missing(s, c.me, running) && MayStart(c, s, n.1) && n == NodeOf(s, n.1)
  }

  /** No missing replica is hindered, and all that may be started run. */
  ghost predicate AllStarted(c: Setup, s: State, running: set<Node>, running': set<Node>) {
    forall r :: r in Missing(s, c.me, running) ==>
      !Hindered(c, s, r) && (MayStart(c, s, r) ==> NodeOf(s, r) in running')
  }

  /** All missing replicas that may be started run, and the registry has them as active. */
  ghost predicate AllActive(c: Setup, s: State, running: set<Node>, t: State, running': set<Node>) {
    forall r :: r in Missing(s, c.me, running) && MayStart(c, s, r) ==>
      NodeOf(s, r) in running' && r in t.replicas && t.replicas[r].status == "active"
  }

  lemma StartedStrictly(c: Setup, calm: bool, a: Sys, b: Sys)
    requires Surveyed(c, a) && Reaches(Works(c, calm), a, b) && b.phase.Starting? && b.phase.todo == {}
    ensures OnlyStartable(c, a.reg, a.running, b.running)
    ensures b.phase.hadErr || AllStarted(c, a.reg, a.running, b.running)
    ensures calm ==> AllActive(c, a.reg, a.running, b.reg, b.running)
  {
    SurveyedStart(c, a);
    ReachesWiden(Works(c, calm), Works(c, false), a, b);
    StrictReaches(c, a.reg, a.running, a.phase.todo, a, b);
    if calm {
      ReportedReaches(c, a.reg, a.phase.todo, a, b);
      forall r | r in Missing(a.reg, c.me, a.running) && MayStart(c, a.reg, r)
        ensures NodeOf(a.reg, r) in b.running && r in b.reg.replicas && b.reg.replicas[r].status == "active"
      {
        assert UpAndActive(c, a.reg, a.phase.todo, b, r);
      }
    }
  }

  lemma StartedAll(c: Setup, calm: bool, a: Sys, b: Sys)
    requires Surveyed(c, a) && Reaches(Works(c, calm), a, b) && b.phase.Starting? && b.phase.todo == {}
    ensures Reaches(Works(c, false), a, b)
    ensures calm && AllStartable(a.reg, c.me) ==> !b.phase.hadErr && Covered(a.reg, c.me, c.types, b.running)
  {
    ReachesWiden(Works(c, calm), Works(c, false), a, b);
    if calm && AllStartable(a.reg, c.me) {
      SurveyedProgress(c, a);
      CalmReaches(c, a.reg, a, b);
      ProgressDone(c, a.reg, b);
    }
  }

  /** A whole tick from `a`, if one is due: look, work until nothing is left at `last`, and finish. */
  ghost predicate WholeTick(c: Setup, a: Sys, last: Sys, b: Sys) {
    if Begun(c, a) == a then b == a
    else
      && Reaches(Works(c, false), Begun(c, a), last)
      && last.phase.Starting? && last.phase.todo == {} && b == Ended(c, last)
  }

  lemma WholeTickReaches(c: Setup, a: Sys, last: Sys, b: Sys)
    requires a.phase.Idle? && WholeTick(c, a, last, b)
    ensures Reaches(Moves(c), a, b)
  {
    ReachesRefl(Moves(c), a);
    if Begun(c, a) != a {
      assert Moves(c)(a, Begin, Begun(c, a));
      ReachesOn(Moves(c), a, a, Begin, Begun(c, a));
      ReachesWiden(Works(c, false), Moves(c), Begun(c, a), last);
      ReachesTrans(Moves(c), a, Begun(c, a), last);
      assert Moves(c)(last, Finish, b);
      ReachesOn(Moves(c), a, last, Finish, b);
    }
  }

  lemma WholeTickSafe(c: Setup, a: Sys, last: Sys, b: Sys)
    requires Safe(c, a) && a.phase.Idle? && WholeTick(c, a, last, b)
    ensures Safe(c, b) && Complete(b.reg, c.me, b.index, c.types, b.running)
  {
    if Begun(c, a) != a {
      SafeBegin(c, a);
      ReachesSafe(c, false, Begun(c, a), last);
      SafeFinish(c, last);
    }
    AnchoredComplete(b.reg, b.base, c.me, b.index, c.types, b.running);
  }

  class Controller {
    const setup: Setup
    var index: nat
    var running: set<Node>

    constructor (setup: Setup)
      ensures this.setup == setup && index == 0 && running == {(0, setup.prime)}
    {
      this.setup, index, running := setup, 0, {(0, setup.prime)};
    }

    /** The controller at rest. */
    ghost function At(s: State, base: State): Sys
      reads this
    {
      Sys(s, index, running, base, Idle)
    }

    /** One tick, starting from the registry `s`: steps of the machine above. */
    method Tick(s: State, turns: seq<Turn>, ghost base: State) returns (t: State, ghost base': State, ghost last: Sys)
      requires Safe(setup, At(s, base))
      modifies this
      ensures WholeTick(setup, old(At(s, base)), last, At(t, base'))
      ensures Reaches(Moves(setup), old(At(s, base)), At(t, base'))
      ensures Safe(setup, At(t, base')) && Complete(t, setup.me, index, setup.types, running)
      ensures old(running) <= running && old(index) <= index
      ensures setup.me in s.hosts && Covered(s, setup.me, setup.types, old(running)) ==>
                t == s && s.hosts[setup.me].updated <= index
      ensures setup.me in s.hosts && s.hosts[setup.me].updated > old(index) && AllStartable(s, setup.me)
              && AllSmooth(s, turns) ==>
                Covered(s, setup.me, setup.types, running) && index == s.hosts[setup.me].updated
      ensures OnlyStartable(setup, s, old(running), running)
      ensures index > old(index) ==> AllStarted(setup, s, old(running), running)
      ensures forall r :: r in Missing(s, setup.me, old(running)) && Hindered(setup, s, r) ==>
                index == old(index) && NodeOf(s, r) !in running
      ensures setup.me in s.hosts && s.hosts[setup.me].updated > old(index) && AllSmooth(s, turns) ==>
                AllActive(setup, s, old(running), t, running)
    {
      t, base' := s, base;
      ghost var a := At(s, base);
      last := a;
      if setup.me in s.hosts && s.hosts[setup.me].updated > index {
        SafeBegin(setup, a);
        var hadErr;
        ghost var failed;
        t, running, failed, hadErr := StartMissing(setup, s, running, turns, Begun(setup, a));
        last := Sys(t, index, running, base, Starting(s, {}, failed, hadErr));
        if !hadErr {
          index, base' := s.hosts[setup.me].updated, s;
        }
      }
      WholeTickReaches(setup, a, last, At(t, base'));
      WholeTickSafe(setup, a, last, At(t, base'));
    }
  }
}
