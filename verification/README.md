# Zongzi in Dafny

Zongzi runs many Raft shards on a set of hosts. A registry of hosts, shards and replicas is itself a
replicated state machine (the prime shard). A shard controller, a host controller and a client manager
read it and act on it. This project models these parts and proves what they owe each other over whole
runs.

| file | models |
|---|---|
| `Registry.dfy`, `Replays.dfy` | the registry's tables, the commands and their effects, as functions; replaying a log |
| `RegistryRuns.dfy` | runs with restarts: invariants, panics, id freshness, stamps |
| `LastWriters.dfy` | what stored fields owe to the log: the last entry that spoke about them |
| `Fsm.dfy` | the state machine that updates the tables row by row, proved to refine the functions |
| `Snapshot.dfy` | saving and recovering, and when a restart is invisible |
| `Watermarks.dfy`, `Places.dfy`, `Iteration.dfy` | what update stamps and replica rows tell about the past |
| `Numerals.dfy`, `TagText.dfy` | cluster names, tag lists and the text of placement policies |
| `Placement.dfy`, `PlacementPolicy.dfy`, `Reconciler.dfy` | what a policy asks for, how it is read, and the controller's pass |
| `Convergence.dfy`, `ShardManager.dfy`, `Livelock.dfy` | why the passes come to an end, the manager's tick, and where it does not end |
| `OnePerHost.dfy` | the controller among other proposers |
| `HostController.dfy`, `ClientManager.dfy` | the two other consumers of the registry |
| `Bootstrap.dfy`, `PrimeInit.dfy` | agreement on the prime members, and the registry's first rows |
| `KvStore.dfy` | the example key-value store |
| `Chains.dfy` | chains of steps of any machine |
| `Witnesses.dfy` | short runs in which a property fails |

A run is a sequence of entries with increasing indexes, mixed with restarts. A restart names the point of
its snapshot, recovers from it and replays all entries since. A panic is the outcome `Crash`. Map walks
take keys in any order, and so do walks over hosts; where their order decides, it is a parameter.
Proposals, starts and pings have their outcomes, and the steps of other proposers, as parameters, so a
contract holds for all of them. `State` values are passed along; the classes hold what the source's
objects hold.

## What the code does and does not promise

Where a property fails, the project has the exact condition under which it holds, and a state or a run
in which it does not.

- A shard put may give a shard the name of another. The name index then loses an entry when one of them
  is renamed, and a restart from a snapshot brings it back: replicas then answer differently.
  `Snapshot.RestartInvisibleExactly`, `Snapshot.ExactPreservedExactly` and `Witnesses.NameLost`.
- A post that the live registry took is then refused in the replay. The restart loses that shard, and
  its id is given out again. `Snapshot.RestartKeepsExactly` and `Snapshot.RunKeepsExactly` say when, for
  one restart and for whole runs, and `Witnesses.ShardIdReused` is such a run. Replica ids never come
  back, whatever the restarts.
- A replica put that reassigns a replica hides the change from the former host or shard.
  `Watermarks.HostChangeMissedExactly`, `Watermarks.ShardChangeMissedExactly` and `Witnesses.MoveMissed`.
- Writing tags into a row or a command without a tag map panics, as does a post or a put that names an
  unknown host. Apart from the storage library's id codecs, which panic on a host id that is not a UUID
  and are not modelled, nothing else does. `RegistryRuns.CrashExactly` and `Witnesses.Panicking`.
- A create on a host that lacks the vary key does not count towards its group; the replica is deleted by
  the next pass. `Convergence.CreateCountsExactly`. The manager's loop over a shard can go on for ever
  exactly if it can get to a pass that creates replicas on such hosts only. `Livelock.LoopsExactly`, for
  any rule by which hosts are picked; `Livelock.StuckExactly` is the condition by counting hosts. With the
  hosts in the order in which the registry lists them this happens although a good host is there:
  `Witnesses.FirstHostUseless`.
- The comment at shard_controller_default.go:229-235 says that members never violate the vary policy.
  The `break` there leaves the inner loop only, and members created in one pass do not see each other.
  `Placement.MembersCrowdExactly`, with `Witnesses.MembersTogether` and `Witnesses.MemberRepeated`.
- Replicas requested under the group name "member" or "" are ignored. `PlacementPolicy.RequestRoundTrip`
  and `PlacementPolicy.RequestIgnored`.
- A `cover` tag beside a replica group called "cover" is read in map order.
  `PlacementPolicy.OrderMattersExactly` and `PlacementPolicy.CoverReadTwice`.
- A later copy of a successful set that expected a version below its own index takes effect exactly if
  the key is absent at that point. A set that expects its own index takes effect twice.
  `KvStore.CopyTakesEffectExactly` and `KvStore.SetTwice`.
- Ids are 64-bit, yet they cannot wrap: neither counter outruns the log index. `RegistryRuns.Reachable`.

## Model

| member | source | states |
|---|---|---|
| RegistryRuns.CommandChange | fsm.go:70-275 | every command moves the counters by at most one, keeps Created, stamps with its own index, stores replicas on stored hosts only and leaves no unknown name in the index |
| RegistryRuns.StepInv | fsm.go:34-279 | an entry that does not panic keeps rows keyed, hosts present, ids within their counters, Created ≤ Updated ≤ index, and indexed names real |
| RegistryRuns.Reachable | fsm.go:34-279 | that invariant holds in every state of every run, with restarts from any earlier snapshot and replays of the rest, and the log stays ahead of it |
| RegistryRuns.RunLedger | fsm.go:34-279 | in every such state the replica counter counts the replica posts of the log, and every replica row was created by the post that its id names |
| RegistryRuns.CrashExactly | fsm_state_radix.go:287-298 | an entry panics if and only if a post or put names an unknown host or tags are written into a missing map; status, delete and touch commands do not |
| RegistryRuns.CrashesExactlyWhen | fsm.go:214-264 | the same after any run |
| RegistryRuns.PostAdvances | fsm_state_radix.go:183-200 | a post that is accepted advances its counter by one without wrapping and reports the new id |
| RegistryRuns.ReplicaIdFresh | fsm.go:215-227 | a replica id is above every replica id of every earlier state of the run, deletions and restarts from old snapshots notwithstanding |
| RegistryRuns.ReplicaIdsIncrease | fsm_state_radix.go:195-200 | two replica posts of a run report increasing ids |
| RegistryRuns.ShardIdFresh | fsm.go:127-131 | a shard id is above every shard id of every earlier state, as long as no restart changes the tables |
| RegistryRuns.ShardsComeFromPosts | fsm.go:141-151 | once a shard has been posted, a new shard row can only come from a post, never from a put, as long as no restart changes the tables |
| RegistryRuns.StampsOverRun | fsm.go:75-89 | between any two points of a run whose restarts keep the tables Updated never decreases, and Created is constant for the life of a host or shard row |
| RegistryRuns.ReplicaCreatedOnce | fsm.go:215-227 | a replica row found at two points of any run has the same Created, for its id never comes back |
| LastWriters.ShardsFollowLog | fsm.go:118-206 | at every point of every run whose restarts keep the tables, name, type, status, leader, term, stamps and each tag of a stored shard are what the last entry to speak about that field said; a status command speaks about status and stamp only, a leader command about leader, term and stamp, a put or post about all but inherited tags and Created |
| LastWriters.ShardStoredExactly | fsm.go:118-199 | a shard is stored if and only if the last entry to create or delete it created it |
| LastWriters.ReplicasFollowLog | fsm.go:214-271 | likewise for a replica's host, shard, status, voting and witness flags, stamps and tags |
| LastWriters.ReplicaStoredExactly | fsm.go:97-264 | a replica is stored if and only if the last entry to post it or to delete it, its host or its shard posted it |
| LastWriters.HostsFollowLog | fsm.go:75-110 | likewise for a host's status, addresses, shard types, stamps and tags |
| LastWriters.HostStoredExactly | fsm.go:75-103 | a host is stored if and only if the last entry to put or delete it put it |
| LastWriters.HeaderFollowsLog | fsm_state_radix.go:183-200 | the shard counter is the id of the last post taken and the last host is the host last put anew |
| LastWriters.NamesFollow | fsm.go:118-158 | after every entry a name is indexed if and only if the entry inserted a row of that name, or it was indexed and the entry neither renamed nor deleted a row of that name |
| LastWriters.AnswersExactly | fsm.go:70-278 | every entry of every run reports the id for posts, touches and puts of shards, and otherwise one or zero as there was a row and something to write; a refused post reports the name |
| LastWriters.LastSaidExactly | fsm.go:34-279 | a field's last word is that of an entry after which no entry says anything about it |
| Fsm.SetTags | fsm.go:343-349 | the loop, in any order, equals the map union, reports whether anything was written, and panics on a missing map exactly when there is something to write |
| Fsm.SetTagsNX | fsm.go:351-359 | the same for writing absent keys only |
| Fsm.RemoveTags | fsm.go:361-367 | the same for removal, which never panics |
| Fsm.WriteTagsInPlace | fsm.go:343-367 | the three loops refine the pure tag operation |
| Fsm.Store.TouchShardsOfHost | fsm.go:84-87 | touching shard by shard, in any order and repeatedly, stamps exactly the shards with a replica on the host |
| Fsm.Store.TouchHostsOfShard | fsm.go:154-157 | touching host by host stamps exactly the hosts of the shard's replicas, and panics exactly when one is missing |
| Fsm.Store.DeleteReplicasOnHost | fsm.go:97-101 | the cascade removes exactly the host's replicas and stamps exactly their shards |
| Fsm.Store.DeleteReplicasOfShard | fsm.go:193-197 | the cascade removes exactly the shard's replicas and stamps exactly their hosts |
| Fsm.Store.UpdateHostPut | fsm.go:75-89 | the row-by-row update is the function's new state, or a panic where the function has one |
| Fsm.Store.UpdateShardPut | fsm.go:141-158 | likewise, with the special case of the prime shard |
| Fsm.Store.UpdateReplicaPost | fsm.go:214-227 | likewise, with the choice between bootstrapping and joining |
| Fsm.Store.Update | fsm.go:34-279 | one entry takes the tables to the state and result that `Apply` gives, keeps the invariant, and crashes exactly when `Panics` says so |
| Snapshot.Save | fsm_state_radix.go:520-558 | the saved lines load into an empty state as the saved one with its name index rebuilt, and no proper prefix of them loads |
| Snapshot.Recover | fsm_state_radix.go:560-595 | succeeds if and only if header and counted rows are all there, and then equals the load of the stream; a failed recovery leaves the header's counters and exactly the rows before the first missing one |
| Snapshot.ListingLoads | fsm_state_radix.go:520-595 | any listing of the rows, in any order, loads as the same state |
| Replays.ReplaySplit | fsm.go:34-279 | replaying a log is replaying a prefix and then the rest |
| Snapshot.RestartInvisibleExactly | fsm_state_radix.go:560-595 | every continuation of the log that the registry can receive reports the same results after a restart as without it, if and only if every stored name was indexed |
| Snapshot.SnapshotReplay | fsm_state_radix.go:520-595 | under that condition, saving after any prefix, recovering and applying the rest gives the tables, counters and results of the whole log |
| Snapshot.ExactPreservedExactly | fsm.go:141-158 | a put that takes another shard's name is the one command that makes the name index inexact |
| Snapshot.NamesStayComplete | fsm.go:118-158 | in a run without such puts every state is the replay of the whole log with an exact index, whatever restarts there were, and each restart changes nothing |
| Snapshot.ReplayKeepsExactly | fsm.go:118-140 | a log takes two registries that differ in their name index alone through the same tables if and only if it has no post whose name only one of the two indexes has; they then give the same answers |
| Snapshot.RestartKeepsExactly | fsm_state_radix.go:560-595 | a restart from any snapshot, with any table-keeping restarts in between, goes through the live registry's tables if and only if no post since then meets a name that the live index and the replay's index disagree on, and it then ends in them |
| Snapshot.RunKeepsExactly | fsm_state_radix.go:560-595 | all restarts of a run go through the live tables if and only if none of them meets such a post, and then no restart of the run changes the tables |
| Witnesses.NameLost | fsm.go:141-158 | a run of four commands after which a stored name is not indexed |
| Witnesses.ShardIdReused | fsm.go:118-140 | that run continued: a post gets id 3, a restart from the snapshot before it loses the shard, and another post gets id 3 again |
| Witnesses.MoveMissed | fsm.go:241-253 | a run whose last put moves a replica, unseen by readers of its former host and shard |
| Witnesses.Panicking | fsm_state_radix.go:287-298 | a first entry that panics over an unknown host, and a run of one entry after which a tag command panics |
| Watermarks.CommandMarks | fsm.go:70-275 | every command stamps the host and the shard of every replica row it adds, removes or changes, unless a put reassigns the replica |
| Watermarks.QuietStep | fsm.go:294-341 | one more command keeps every earlier watermark trustworthy unless it reassigns |
| Watermarks.NoMissedChange | fsm_state_radix.go:352-357 | for any i ≤ j of any run without reassignments whose restarts keep the tables, a host or shard stamped no later than i has at j the replicas, the row up to tags, the leader and the term that it had at i |
| Watermarks.HostChangeMissedExactly | fsm.go:241-253 | a command hides a change from a host if and only if it moves a replica to another host |
| Watermarks.ShardChangeMissedExactly | fsm.go:241-253 | a command hides a change from a shard if and only if it moves a replica out of a stored shard |
| Places.CommitLater | fsm.go:34-279 | an entry that reassigns nothing leaves every earlier reader's watermark, every known replica's place and every due host as they were |
| Iteration.UpdatedAfter | fsm_state_radix.go:391-402 | exactly the shards updated after the index, once each, in the order of their updates |
| Numerals.NameRoundTrip | util.go:263-277 | every accepted name decodes below 36^12, hence within 64 bits, and encodes back without its leading zeros |
| Numerals.DigitsInOrder | util.go:271-277 | the digits are 0 to 9 and a to z in order, and upper case letters are read as the lower case ones |
| Numerals.NamesCollideExactly | agent.go:86 | two accepted names give the same id if and only if they differ in leading zeros only |
| TagText.AtoiItoa | shard_option.go:19 | a printed 64-bit number is read back as itself |
| TagText.PolicyRoundTrip | shard_option.go:17-29 | reading the value text that an option printed gives the number and a filter that accepts exactly the same hosts |
| TagText.PrintedExample | shard_option.go:17-29 | the text that the options print, for a request with tags and for one without |
| PlacementPolicy.RequestRoundTrip | shard_option.go:17-29 | a request, key and value, is read back as its group, number and filter if and only if it is for the members or for replicas under a name other than "" and "member"; any other says nothing |
| PlacementPolicy.RequestHonoured | shard_controller_default.go:42-86 | the policy stated by tags that hold such a request has the group with the requested number and an equivalent filter; tags without a cover clash are always read as the policy they state |
| PlacementPolicy.RequestIgnored | shard_controller_default.go:57-64 | a shard tagged with an excluded request alone has the empty policy |
| PlacementPolicy.OptionsRead | shard_option.go:31-43 | a cover option is read back tag by tag; a vary option is read as one key, the given one if there is only one |
| PlacementPolicy.CoversExactly | shard_controller_default.go:76-81 | a host is covered by a key if and only if it has the key, and by a key and a value if and only if it has that value or the value is empty |
| PlacementPolicy.CoverTotalExactly | shard_controller_default.go:73-84 | a cover declaration asks for as many replicas as there are pairs of a tag and a host covered by it |
| TagText.TagMapFromList | fsm_cmd.go:220-230 | the loop builds the map in which the last value of a key wins |
| TagText.ListMatchesItself | shard_controller_default.go:276-300 | a host matches its own tag list if and only if no key gets two values and no tag starts with an equals sign |
| PlacementPolicy.ReadPolicy | shard_controller_default.go:36-86 | read in any order, the tags give the one policy that they state, unless a cover tag meets a group called "cover" |
| PlacementPolicy.StatesUnique | shard_controller_default.go:36-86 | a set of declarations states at most one policy |
| PlacementPolicy.OrderMattersExactly | shard_controller_default.go:73-84 | two tags commute if and only if they are not that pair |
| PlacementPolicy.CoverReadTwice | shard_controller_default.go:73-84 | tags with two declarations whose order of reading changes every policy |
| Placement.CompletePass | shard_controller_default.go:196-272 | any choice of eligible hosts, members first, can be completed to a pass that leaves no short group an eligible host |
| Placement.SettledMeans | shard_controller_default.go:123-162 | in a settled shard without a vary key every replica fits a group, and every group has its number or a replica of the shard on every host it could use |
| Placement.ReplicasKeepValue | shard_controller_default.go:208-237 | a host that a replica group may still use has the vary value of the group's replicas |
| Placement.MembersCrowdExactly | shard_controller_default.go:208-252 | some pass creates a member where another member, earlier or of the same pass, has the same vary value, if and only if one member is missing and an eligible host repeats a member's value, or two are and two eligible hosts share one |
| Witnesses.MembersTogether | shard_controller_default.go:229-252 | a run of three entries after which every pass over the new shard puts both its members into one zone |
| Witnesses.MemberRepeated | shard_controller_default.go:229-235 | with one entry more, every pass puts the second member where it repeats the first one's value |
| Reconciler.CountReplicas | shard_controller_default.go:89-122 | the counts, vary values, misfits in ascending order and occupied hosts are those of the reference definitions |
| Reconciler.FindMatches | shard_controller_default.go:173-193 | every group that needs hosts gets exactly its unoccupied matching hosts |
| Reconciler.PickVaryTags | shard_controller_default.go:208-237 | the loop gives up or yields the vary values that the group already has, none for members |
| Reconciler.BlockedExactly | shard_controller_default.go:211-225 | the loop gives up if and only if the group has two vary values or one that no candidate has |
| Reconciler.AddToGroup | shard_controller_default.go:201-267 | up to n creates on distinct, free, eligible hosts; fewer than n only when no eligible host is left or a create fails; it reports an error if and only if one of the proposals it made failed |
| Reconciler.Reconcile | shard_controller_default.go:35-274 | a pass deletes the least misfit, or places replicas, never both; creates go to distinct matching hosts without a replica of the shard, within what each group misses, members first; without failures members number exactly min(missing, eligible) and a group that stays short has no eligible host left; it reports an error if and only if one of its proposals failed |
| Convergence.CreateCountsExactly | shard_controller_default.go:92-121 | a create brings its shard closer to the policy if and only if the host carries the vary key; otherwise it is the next misfit |
| Convergence.DeleteHelps | shard_controller_default.go:164-171 | deleting a misfit brings the shard exactly one step closer |
| Convergence.SettledFixpoint | shard_controller_default.go:123-162 | on a settled shard a pass proposes nothing |
| Convergence.StatedKept | shard_controller_manager.go:86-92 | the manager's own proposals and error tags do not change what policy a shard's tags state |
| Convergence.PlanShort | shard_controller_default.go:201-272 | a pass proposes no more than the shard's distance from its policy |
| Convergence.NoteCrashesExactly | fsm.go:343-349 | noting an error panics if and only if the shard has no tag map |
| Livelock.HopelessNeverSettled | shard_controller_default.go:92-121 | a short group whose only candidates lack the vary key leaves the shard unsettled, and breaks the condition under which ticks end |
| Livelock.NeverEnds | shard_controller_manager.go:73-102 | from such a state every pass, whatever hosts it chooses, proposes something and leads to such a state again |
| Livelock.RoundsEnd | shard_controller_manager.go:73-102 | however hosts are picked, passes that propose something end within a bound on log positions, unless one of them creates replicas on hosts without the vary key only |
| Livelock.EndlessRounds | shard_controller_manager.go:73-102 | from a state that allows such a pass, for any groups, numbers and hosts, there are runs of as many passes as the log has room for |
| Livelock.LoopsExactly | shard_controller_manager.go:73-102 | runs longer than the bound, hence of every length, exist if and only if some run gets to a state that allows such a pass, for every rule of picking hosts that looks at the fitting replicas only |
| Livelock.FirstSteadfast | shard_controller_default.go:173-193 | picking the first hosts in the registry's order, group by group, is such a rule |
| Livelock.StuckExactly | shard_controller_default.go:201-267 | with one group and free choice, such a pass is possible if and only if there are no misfits, replicas are missing, and the eligible hosts without the vary key are enough for them or all there are |
| Livelock.CarriedNotStuck | shard_controller_default.go:92-121 | it is never possible where every admitted host carries the vary key |
| Witnesses.Unzoned | shard_controller_default.go:92-121 | a run of three entries to a stored shard for which no host has the vary key |
| Witnesses.FirstHostUseless | shard_controller_default.go:173-193 | a run of three entries to a shard for which one of two hosts has the vary key; as the other one is listed first, passes go on for as long as the log has room |
| ShardManager.Pass | shard_controller_manager.go:84-98 | a pass that changes something brings its shard strictly closer, stamps it, and leaves all others alone; one that succeeds and changes nothing finds the shard settled; it fails if and only if a proposal did, and panics if and only if it failed on a shard without a tag map |
| ShardManager.NoteOutcome | shard_controller_manager.go:86-92 | a failed pass leaves its error in the shard's tags, the next good one removes it, and neither stamps the shard; the registry panics exactly if the error has no tag map to go to |
| ShardManager.Sweep | shard_controller_manager.go:73-102 | a sweep stops at the first change, strictly closer to all policies together, or ends with every shard above the watermark settled or an error; it has an error if and only if a proposal failed |
| ShardManager.Manager.Tick | shard_controller_manager.go:62-113 | whichever proposals fail, the loop ends; without an error every shard above the old watermark is settled and none is above the new one; unless it panics, every new replica is one of a shard above the old watermark, on a host that a group of its policy admits, voting if that group is the members and not voting otherwise; every removed one fitted no group; all other replicas and all hosts' tags are unchanged; it has an error if and only if one of the proposals it made failed, and an error leaves the watermark; shards settled below it stay settled; a panic means that a shard above the watermark has no tag map |
| OnePerHost.OneEachKeptExactly | fsm.go:214-253 | a command keeps one replica per shard and host if and only if it is not a post or put onto a host that has one |
| OnePerHost.DecidedFree | shard_controller_default.go:115-121 | with no misfits, the hosts a pass decides on have no replica of the shard |
| OnePerHost.NeverTwoOnAHost | shard_controller_manager.go:93-98 | in every state of every interleaving of the controller's snapshots, decisions and creates with other proposers, no host has two replicas of a shard |
| HostController.Survey | host_controller.go:71-96 | found holds every assigned replica, marked exactly if a running node has its id |
| HostController.TakeStartsExactly | host_controller.go:98-175 | dealing with a replica starts its node if and only if its shard is stored, its type registered, its status joining, active, or bootstrapping with at least three voting members, and the start succeeds; an unknown shard or too few members is an error |
| HostController.StartsExactly | host_controller.go:98-175 | at every moment of every life a node is added by such a start and by nothing else, and only a reboot removes nodes |
| HostController.Process | host_controller.go:98-182 | handling one missing replica, with others in between, is a chain of the machine's steps; undisturbed, of the calm ones |
| HostController.Controller.Tick | host_controller.go:54-191 | a tick that is due is one look, steps of work and of others until nothing is left to start, and one finish of the machine, and otherwise nothing; it starts only nodes that may be started; the watermark moves only if all of those run, and a replica of an unknown shard, or one to bootstrap with fewer than three voting members, does not run and holds the watermark; a tick that finds everything covered catches up with the host's stamp, and one in which nothing goes wrong starts everything that may be started, has it active, and leaves everything running if everything can be |
| HostController.SafeStep | host_controller.go:54-191 | every step of the controller, of other proposers and of the registry's restarts, and every reboot, in any phase of a tick, keeps the invariant that ties watermark, running nodes and snapshot to the registry |
| HostController.AlwaysComplete | host_controller.go:54-191 | at every moment of every interleaving of the controller's single steps with reboots and with events of others that reassign no replica and give the prime node's id to no other shard's replica: if the watermark has reached the host's stamp, every non-prime replica assigned to the host runs, if its type is registered |
| HostController.FinishCatchesUp | host_controller.go:184-190 | a tick that ends without an error has moved the watermark up to the stamp it read, and then the host has been stamped again or everything assigned runs |
| HostController.CalmTickCovers | host_controller.go:98-190 | in any such history an undisturbed tick that has only startable replicas to deal with leaves all of them running and the watermark at the stamp it read |
| HostController.CalmTickReports | host_controller.go:176-181 | in any such history an undisturbed tick leaves every replica that it could start running and reported active |
| HostController.CoveredTickCatchesUp | host_controller.go:62-96 | once everything runs, an undisturbed tick changes nothing and leaves the watermark at the host's current stamp |
| ClientManager.Gather | shard_client_manager.go:90-116 | the lists hold exactly the answering replicas and the leader exactly if it answered; a listed replica has the time in which its host answered, an unlisted one a failed call to its host among those just made; a replica on a host already known is listed; a host that answered is not asked again; there are no more calls than replicas |
| ClientManager.Ordered | shard_client_manager.go:117-126 | strictly ascending pings, only given clients, every ping present; equal pings collapse |
| ClientManager.CoherentKept | shard_client_manager.go:84-136 | an entry stays right as long as its shard is stamped no later than the state it was made from |
| ClientManager.CurrentExactly | shard_client_manager.go:90-126 | with distinct pings a list names the registry's hosts if and only if all of them answered |
| ClientManager.EntryCurrent | shard_client_manager.go:127-134 | with all answering, members, replicas, leader id and term are those of a full recomputation |
| ClientManager.RefreshAll | shard_client_manager.go:76-149 | a tick enters exactly the newer shards, each with all replicas but those on hosts to which a call failed, leaves all other entries, moves the index to the last stamp whatever the pings do, asks no host again that answered, and makes no more calls than there are replicas |
| ClientManager.TickKeeps | shard_client_manager.go:76-149 | such a tick keeps every covered shard cached as the registry has it and leaves no shard uncovered |
| ClientManager.AlwaysCurrent | shard_client_manager.go:76-149 | at every point of every run in which no replica changes its shard and restarts keep the tables, with ticks and new processes anywhere, every covered shard is cached as the current registry has it, as far as its hosts answered; in full if all pings were answered |
| ClientManager.LookCatchesUp | shard_client_manager.go:76-149 | right after any tick of such a history every shard of the registry is covered and cached |
| ClientManager.OutdatedExactly | shard_client_manager.go:82-86 | until the next tick the uncovered shards are exactly those stamped since |
| Bootstrap.Agreement | agent.go:597-680 | in every state of every interleaving of single calls, decisions, copies, failures and retries, an agent that has finished has exactly the map from i + 1 to the host of peer i and its own place as its number, and nobody ever publishes an entry outside that map |
| Bootstrap.FirstRound | agent.go:634-645 | in any reachable cluster in which all are up and none has a number, one undisturbed round finishes an agent with the full list and its own place |
| Bootstrap.NumberedRound | agent.go:630-633 | so it does where all are up and have a number |
| Bootstrap.AbsentRound | agent.go:621-623 | as long as some peer is not up, a round ends where it began |
| Bootstrap.MixedRound | agent.go:647-655 | where all are up and some but not this one have a number, a round ends in copying from a peer that has one |
| Bootstrap.MixedCopy | agent.go:662-674 | that copy gives the agent its own place, and finishes it, with the full list, if and only if every number is either taken from the copied list or held by a peer |
| Bootstrap.LastRound | agent.go:647-674 | when all others have finished, one undisturbed round finishes the last agent, whatever the order of the walk and however early it breaks off |
| Bootstrap.ComesUp | agent.go:597-680 | for any list of distinct hosts there is an interleaving from agents that are not up to all agents done, with the full list published by each |
| PrimeInit.PostNext | fsm.go:214-227 | the next prime post gets the next member number, bootstrapping for the first three and joining afterwards |
| PrimeInit.Initialize | agent.go:854-877 | whatever the order of the member map and the harmless events of others, if all proposals get through then replica i is on host members[i] of the prime shard, its post stored it as bootstrapping for i ≤ 3 and as joining afterwards, and the prime shard is stored unless its put met a registry without it in which shards had been posted; undisturbed, the prime shard then has the project's name and type and every member's host is new and has its address, and unless the prime shard's row already has tags, all proposals do get through and the rows end with these statuses |
| KvStore.StateMachine.Update | _example/kv1/state_machine.go:35-77 | a batch in place equals the fold of its entries, each entry getting the result for the state before it |
| KvStore.AnswersTell | _example/kv1/state_machine.go:45-73 | in any log a set or deletion reports success if and only if it took effect, after which the key has the new record or is gone; otherwise the versions differ and nothing changes; a set and a rejected deletion report the record that the key then holds |
| KvStore.OthersTell | _example/kv1/state_machine.go:39-44 | an entry that cannot be read reports its own value, one of another kind reports nothing, and both change nothing |
| KvStore.VersionNamesWriter | _example/kv1/state_machine.go:45-59 | whatever a key holds was written by the entry its version names and not touched since |
| KvStore.ChainExactly | _example/kv1/state_machine.go:45-59 | a set of a present key succeeds if and only if it names the key's last writer, with no write or deletion in between |
| KvStore.DuplicateRejected | docs/adr/raft_sessions.md:15-24 | a later copy of a successful set that expected a version below its own index is turned down without effect unless the key was deleted in between |
| KvStore.CopyTakesEffectExactly | _example/kv1/state_machine.go:46-56 | over a whole log, a later copy of a successful set that expected a version below its own index takes effect if and only if the key is absent then |
| KvStore.AbsentMeansDeleted | _example/kv1/state_machine.go:60-73 | a key that was set and is absent later has been deleted in between |
| KvStore.SetTwice | _example/kv1/state_machine.go:46-56 | a log in which a set that expects its own index takes effect twice |

## Left out

- gRPC services, client pools, streams, DNS, gossip, timers, logging, mutexes and the HTTP handler.
- The storage library's own indexes and the panics of its id codecs; the name index is modelled as a set of names, the tag index not at all, so a cover key that is not empty is looked up in the tags themselves.
- JSON text: a malformed entry is one kind of command, and a snapshot is a sequence of records.
- Aliasing of tag maps: tags are values, so a stored map changed in place before its row is put is not distinguished from the put.
- Overflow of index + 1 in the iteration over updated shards, at the last 64-bit index.
- Several vary keys: the option joins them, the controller reads the whole value as one key, and so does the model.
- Balance between vary values, removal of excess replicas and rebalancing, which the code does not do. The excess and rebalance counts only decide an early exit, so they do not appear.
- Reconciler.Reconcile: maximality is stated for vary keys that are not empty and do not start with an equals sign, because the controller's own format does not parse back otherwise.
- Reconciler.PickVaryTags: promises nothing about the choice for vary keys that are empty or start with an equals sign, for the same reason.
- RegistryRuns.CrashExactly: does not count the panics of the storage library's codec for host ids that are not UUIDs; the library is not part of this model.
- RegistryRuns.CrashesExactlyWhen: the same.
- RegistryRuns.ShardIdFresh: for runs whose restarts keep the tables; `Witnesses.ShardIdReused` shows that the condition is needed, `Snapshot.RunKeepsExactly` says when it is met.
- RegistryRuns.ShardsComeFromPosts: for the same runs.
- RegistryRuns.StampsOverRun: for the same runs.
- Watermarks.NoMissedChange: for the same runs.
- LastWriters.ShardsFollowLog: for the same runs.
- LastWriters.ShardStoredExactly: for the same runs.
- LastWriters.ReplicasFollowLog: for the same runs.
- LastWriters.ReplicaStoredExactly: for the same runs.
- LastWriters.HostsFollowLog: for the same runs.
- LastWriters.HostStoredExactly: for the same runs.
- LastWriters.HeaderFollowsLog: for the same runs.
- LastWriters.NamesFollow: is about one entry, because a restart rebuilds the index from the rows.
- Restarts that change the tables, in what is said about the two controllers, the client manager and the prime shard's first rows.
- ShardManager.Manager.Tick: requires that every host that a filter admits carries the vary key, so that `Livelock.LoopsExactly` does not strike even when proposals fail, log positions to spare, no cover clash in the tags of a shard above the watermark, and no other proposer during the tick; a shard whose vary key is empty or starts with an equals sign counts as settled once it has no misfits; cancellation and failing reads are not modelled.
- Livelock.LoopsExactly: is about the passes over one shard, with the policy its tags state, in which no proposal fails and nobody else proposes.
- Placement changes that do not bring a shard back to the controller: shard tag commands do not stamp the shard, and a new host stamps none.
- HostController.Controller.Tick: a join request that never succeeds blocks the controller; the model takes it to return. Stopping, promoting and demoting replicas are empty branches in the source.
- ClientManager.AlwaysCurrent: does not compare host addresses, which are never refreshed, and takes a host's client to exist; entries of deleted shards are kept, as in the source, and not described.
- Bootstrap.Agreement: the agents are the peers and have no stored replica id at the start; agents outside the peer list, and how many agents initialize, are not described. The retry loop is a machine of single steps rather than a loop, so that other agents can move between any two calls.
- Bootstrap.ComesUp: is one interleaving in which agents finish one after another; with failures, or with agents that keep asking at the wrong times, an agent may go on for ever.
- PrimeInit.Initialize: says nothing about the prime shard's name and type and the hosts' addresses when others put them too, and nothing about events that post, put or delete replicas or delete hosts or shards in between.
- OnePerHost.NeverTwoOnAHost: one controller leads at a time, a failed proposal does not commit later, and others neither move replicas nor post them outside the prime shard.
