/**
 At most one replica of a shard per host. The controller decides on a snapshot and commits its
 creates one by one while other proposers keep writing; the guarantee must survive every
 interleaving, since the creates themselves are not conditional.
 */
module OnePerHost {
  import opened Numerals
  import opened Registry
  import opened RegistryRuns
  import opened Watermarks
  import opened Places
  import opened Placement
  import opened Convergence

  /** No host has two replicas of the same shard, the prime shard aside. */
  ghost predicate OneEach(s: State) {
    forall r, x :: r in s.replicas && x in s.replicas && r != x && s.replicas[r].shardId == s.replicas[x].shardId != 0
      ==> s.replicas[r].hostId != s.replicas[x].hostId
  }

  /** Some replica other than `r` of shard `k` is on the host. */
  ghost predicate Taken(s: State, k: nat, host: string, r: nat) {
    exists x :: x in s.replicas && x != r && s.replicas[x].shardId == k && s.replicas[x].hostId == host
  }

  /** The command puts a second replica of a shard on a host. */
  ghost predicate Doubles(s: State, cmd: Command) {
    match cmd
    case ReplicaPost(row) => row.shardId != 0 && Taken(s, row.shardId, row.hostId, 0)
    case ReplicaPut(row) =>
      row.id in s.replicas && row.shardId != 0 && Taken(s, row.shardId, row.hostId, row.id)
    case _ => false
  }

  /** Nothing but deletions: every row of `t` has its place in `s`. */
  ghost predicate Within(s: State, t: State) {
    forall r :: r in t.replicas && t.replicas[r].shardId != 0 ==>
      && r in s.replicas
      && t.replicas[r].shardId == s.replicas[r].shardId && t.replicas[r].hostId == s.replicas[r].hostId
  }

  lemma WithinTrans(s: State, t: State, u: State)
    requires Within(s, t) && Within(t, u)
    ensures Within(s, u)
  {
  }

  lemma WithinOneEach(s: State, t: State)
    requires OneEach(s) && Within(s, t)
    ensures OneEach(t)
  {
  }

  lemma StoresOneEach(s: State, t: State, r: nat, k: nat, host: string)
    requires OneEach(s) && Stores(s, t, r, k, host)
    ensures OneEach(t) <==> k == 0 || !Taken(s, k, host, r)
  {
    if k != 0 && Taken(s, k, host, r) {
      var x :| x in s.replicas && x != r && s.replicas[x].shardId == k && s.replicas[x].hostId == host;
      assert t.replicas[x].hostId == t.replicas[r].hostId;
    }
  }

  /** Which commands keep the property, exactly. */
  lemma OneEachKeptExactly(s: State, e: Entry)
    requires Inv(s) && Fits(s, e) && OneEach(s) && ApplyCommand(s, e.cmd, e.index).Next?
    ensures OneEach(ApplyCommand(s, e.cmd, e.index).state) <==> !Doubles(s, e.cmd)
  {
    var t := ApplyCommand(s, e.cmd, e.index).state;
    match e.cmd
    case ReplicaPost(row) =>
      PostStores(s, row, e.index);
      StoresOneEach(s, t, s.replicaCounter + 1, row.shardId, row.hostId);
      assert Taken(s, row.shardId, row.hostId, 0) <==> Taken(s, row.shardId, row.hostId, s.replicaCounter + 1);
    case ReplicaPut(row) =>
      if row.id in s.replicas {
        PutStores(s, row, e.index);
        StoresOneEach(s, t, row.id, row.shardId, row.hostId);
      }
    case _ =>
      OtherCommandShrinks(s, e);
      WithinOneEach(s, t);
  }

  /******* The controller among other proposers *******/

  /** `snap` is the snapshot that the controller's sweep reads; it is `current` until the controller
      itself has changed something. `queue` holds the creates it has decided on and not yet seen
      through. */
  datatype System = System(reg: State, snap: State, current: bool, queue: seq<Op>)

  datatype Act =
    | Log(event: Event)
    | Snapshot
    | Decide(shard: nat, policy: Policy, placed: seq<Placed>)
    | CreateNext(index: nat)
    | GiveUp

  /** What other proposers may do: anything but move a replica or post one outside the prime shard. */
  predicate Benign(s: State, event: Event) {
    event.Commit? ==>
      && !MovesHost(s, event.entry.cmd) && !MovesShard(s, event.entry.cmd)
      && (event.entry.cmd.ReplicaPost? ==> event.entry.cmd.replica.shardId == 0)
  }

  ghost predicate Acts(a: System, act: Act, b: System) {
    match act
    case Log(event) =>
      Benign(a.reg, event) && Stepped(a.reg, event, b.reg) && b == a.(reg := b.reg)
    case Snapshot =>
      a.queue == [] && b == a.(snap := a.reg, current := true)
    case Decide(k, p, placed) =>
      && a.queue == [] && a.current && k != 0
      && Undesired(a.snap, k, p) == {} && Sound(a.snap, k, p, placed)
      && b == a.(queue := Creates(k, placed))
    case CreateNext(index) =>
      && a.queue != []
      && Stepped(a.reg, Commit(Entry(index, CommandOf(a.queue[0]))), b.reg)
      && b == a.(reg := b.reg, current := false, queue := a.queue[1..])
    case GiveUp =>
      b == a.(queue := [])
  }

  /** The log positions that the run uses. */
  function IndexOf(act: Act): Option<nat> {
    match act
    case Log(Commit(e)) => Some(e.index)
    case CreateNext(index) => Some(index)
    case _ => None
  }

  ghost predicate IsSystemRun(acts: seq<Act>, xs: seq<System>) {
    && |xs| == |acts| + 1
    && xs[0].reg == EMPTY && xs[0].queue == [] && !xs[0].current
    && (forall i :: 0 <= i < |acts| ==> Acts(xs[i], acts[i], xs[i + 1]))
    && (forall i :: 0 <= i < |acts| && IndexOf(acts[i]).Some? ==> xs[i].reg.index < IndexOf(acts[i]).value < U64_LIMIT)
  }

  /** No replica of a queued create's shard is on its host, and no two queued creates share a host. */
  ghost predicate Free(s: State, queue: seq<Op>) {
    && (forall i :: 0 <= i < |queue| ==>
          queue[i].Create? && queue[i].shard != 0 && !Taken(s, queue[i].shard, queue[i].host, 0))
    && (forall i, j :: 0 <= i < j < |queue| ==>
          queue[i].shard == queue[j].shard && queue[i].host != queue[j].host)
  }

  ghost predicate Safe(a: System) {
    && Inv(a.reg) && OneEach(a.reg)
    && (a.current ==> Within(a.snap, a.reg))
    && Free(a.reg, a.queue)
  }

  lemma WithinTaken(s: State, t: State, k: nat, host: string, r: nat)
    requires Within(s, t) && k != 0 && Taken(t, k, host, r)
    ensures Taken(s, k, host, r)
  {
    var x :| x in t.replicas && x != r && t.replicas[x].shardId == k && t.replicas[x].hostId == host;
    assert x in s.replicas && s.replicas[x].shardId == k && s.replicas[x].hostId == host;
  }

  lemma WithinFree(s: State, t: State, queue: seq<Op>)
    requires Within(s, t) && Free(s, queue)
    ensures Free(t, queue)
  {
    forall i | 0 <= i < |queue| ensures !Taken(t, queue[i].shard, queue[i].host, 0) {
      if Taken(t, queue[i].shard, queue[i].host, 0) {
        WithinTaken(s, t, queue[i].shard, queue[i].host, 0);
      }
    }
  }

  /** Prime posts and puts that move nothing bring no replica to another host. */
  lemma BenignWithin(s: State, e: Entry)
    requires Inv(s) && Fits(s, e) && Benign(s, Commit(e)) && ApplyCommand(s, e.cmd, e.index).Next?
    ensures Within(s, ApplyCommand(s, e.cmd, e.index).state)
  {
    if e.cmd.ReplicaPost? {
      PostStores(s, e.cmd.replica, e.index);
    } else if e.cmd.ReplicaPut? && e.cmd.replica.id in s.replicas {
      PutStores(s, e.cmd.replica, e.index);
    } else if !WritesRow(e.cmd) {
      OtherCommandShrinks(s, e);
    }
  }

  /** With no misfit among the shard's replicas, a candidate host has none of them. */
  lemma CandidateFree(s: State, k: nat, p: Policy, host: string, g: string)
    requires Undesired(s, k, p) == {} && host in Candidates(s, k, p, g)
    ensures !Taken(s, k, host, 0)
  {
    forall x | x in s.replicas && s.replicas[x].shardId == k ensures s.replicas[x].hostId in Occupied(s, k, p) {
      assert x !in Undesired(s, k, p);
    }
  }

  lemma DecidedFree(s: State, k: nat, p: Policy, placed: seq<Placed>)
    requires k != 0 && Undesired(s, k, p) == {} && Sound(s, k, p, placed)
    ensures Free(s, Creates(k, placed))
  {
    forall i | 0 <= i < |placed| ensures !Taken(s, k, placed[i].host, 0) {
      CandidateFree(s, k, p, placed[i].host, placed[i].group);
    }
  }

  lemma LogSafe(a: System, event: Event, b: System)
    requires Safe(a) && Acts(a, Log(event), b)
    requires event.Commit? ==> Fits(a.reg, event.entry)
    ensures Safe(b)
  {
    LogWithin(a.reg, event, b.reg);
    WithinOneEach(a.reg, b.reg);
    WithinFree(a.reg, b.reg, a.queue);
    if a.current {
      WithinTrans(a.snap, a.reg, b.reg);
    }
  }

  lemma LogWithin(s: State, event: Event, t: State)
    requires Inv(s) && Benign(s, event) && Stepped(s, event, t)
    requires event.Commit? ==> Fits(s, event.entry)
    ensures Inv(t) && Within(s, t)
  {
    match event
    case Restart(_) =>
    case Commit(e) =>
      BenignWithin(s, e);
      StepInv(s, e);
      assert t.replicas == ApplyCommand(s, e.cmd, e.index).state.replicas;
  }

  lemma DecideSafe(a: System, k: nat, p: Policy, placed: seq<Placed>, b: System)
    requires Safe(a) && Acts(a, Decide(k, p, placed), b)
    ensures Safe(b)
  {
    DecidedFree(a.snap, k, p, placed);
    WithinFree(a.snap, a.reg, Creates(k, placed));
  }

  lemma CreateStores(s: State, op: Op, index: nat, t: State)
    requires Inv(s) && op.Create? && s.index < index < U64_LIMIT
    requires Stepped(s, Commit(Entry(index, CommandOf(op))), t)
    ensures Inv(t) && s.replicaCounter + 1 !in s.replicas
    ensures Stores(s, t, s.replicaCounter + 1, op.shard, op.host)
  {
    var cmd := CommandOf(op);
    PostStores(s, cmd.replica, index);
    StepInv(s, Entry(index, cmd));
    assert t.replicas == ApplyReplicaPost(s, cmd.replica, index).state.replicas;
  }

  lemma StoresFree(s: State, t: State, r: nat, queue: seq<Op>)
    requires queue != [] && Free(s, queue) && r !in s.replicas && Stores(s, t, r, queue[0].shard, queue[0].host)
    ensures Free(t, queue[1..])
  {
    forall i | 1 <= i < |queue| ensures !Taken(t, queue[i].shard, queue[i].host, 0) {
      assert queue[0].host != queue[i].host;
    }
  }

  lemma CreateSafe(a: System, index: nat, b: System)
    requires Safe(a) && Acts(a, CreateNext(index), b) && a.reg.index < index < U64_LIMIT
    ensures Safe(b)
  {
    var op, r := a.queue[0], a.reg.replicaCounter + 1;
    CreateStores(a.reg, op, index, b.reg);
    StoresOneEach(a.reg, b.reg, r, op.shard, op.host);
    assert !Taken(a.reg, op.shard, op.host, r);
    StoresFree(a.reg, b.reg, r, a.queue);
  }

  lemma ActSafe(a: System, act: Act, b: System)
    requires Safe(a) && Acts(a, act, b)
    requires IndexOf(act).Some? ==> a.reg.index < IndexOf(act).value < U64_LIMIT
    ensures Safe(b)
  {
    match act
    case Log(event) => LogSafe(a, event, b);
    case Snapshot =>
    case Decide(k, p, placed) => DecideSafe(a, k, p, placed, b);
    case CreateNext(index) => CreateSafe(a, index, b);
    case GiveUp =>
  }

  /** In every state of every run, whatever comes between a snapshot and the creates decided on it,
      no host has two replicas of a shard. */
  lemma {:induction false} NeverTwoOnAHost(acts: seq<Act>, xs: seq<System>, i: nat)
    requires IsSystemRun(acts, xs) && i <= |acts|
    ensures Safe(xs[i])
    ensures OneEach(xs[i].reg)
  {
    if i > 0 {
      NeverTwoOnAHost(acts, xs, i - 1);
      assert Acts(xs[i - 1], acts[i - 1], xs[i - 1 + 1]);
      ActSafe(xs[i - 1], acts[i - 1], xs[i]);
    }
  }
}
