# RStone: a verified model of a Raft-replicated, range-sharded key-value store

RStone stores keys in regions. A region is a range of keys replicated by a Raft group; the placement driver (PD) knows
which region covers which range; a gateway routes client requests and retries when its route is stale. This project
models the parts of RStone that decide whether it is correct, and proves what they promise:

- **Raft on the distributed path.** Voting, log matching with conflict truncation, majority commit, back-off replication,
  persistence and restart, as a step system in which messages may be lost, delivered late or delivered twice and peers
  may crash and restart. Proved over all runs: election safety, log matching, leader completeness, state machine safety
  down to equal user data, no truncation at or below a commit index, the soundness of the follower's commit rule, and
  that a restart is invisible. Elections and client writes across peers are shown to be steps of that system, so a write that
  was answered is never missing from a later leader.
- **The in-process replicated region.** Replicas stay in lockstep through writes, leader transfers, and peers that join
  and leave; no operation loses an election or a majority.
- **Sharding.** Many replicated regions, routing, cross-region checks and a split that moves data refine one plain map.
- **PD.** Ranges always partition the key space, the ordered start-key index finds what a linear scan finds, members and
  epochs stay consistent, also over restarts, and the catalog file holds what is in memory except in one exact case.
- **The gateways.** PD's and the store's region tables stay in step through splits, and while they are in step one retry is
  enough whatever the route cache holds. Any number of gateways together serve one map, with the exact condition under which
  a request is refused while a split has reached PD and not yet the store.
- **Durability formats.** Hexadecimal and decimal text, log lines, commands, Raft entries, padded keys, field maps and
  the catalog: printers and parsers that undo each other, with the exact inputs on which they do not.

## How it is organised

| file | what it holds |
|---|---|
| `Basics`, `Order`, `IdOrder`, `Codec` | byte strings, map iteration order, hexadecimal, decimal and word formats |
| `KvEngine`, `KvCommand` | the file-backed engine and its line log; the commands that Raft replicates |
| `RaftCore`, `RaftLaws`, `RaftLog`, `RaftPeer` | Raft transition functions, what they decide field by field, the merge of a leader's entries, class `RaftNode` |
| `RaftStorage`, `RegionNode`, `RegionServer` | Raft state in the engine, one peer with its engine, class `DistributedRegionNode` |
| `RaftCluster` | the cluster as a step system; `IsRun` is a run |
| `RaftHistory`, `RaftFrames`, `RaftElection`, `RaftReplication`, `RaftProgress` | history variables and the inductive invariant |
| `RaftSafety` | the guarantees over runs; they mention runs only, no history |
| `Replication`, `RegionGroup`, `RegionRuns` | `ReplicateToStore`: when it succeeds, catch-up, the commit rule; elections and writes across peers; these as steps of the protocol |
| `SingleRegion`, `GroupLaws`, `Lockstep`, `Migration`, `GroupRuns`, `Reopen`, `ReopenShards`, `RegionCluster` | the in-process region on any state and in lockstep, when it reopens, and its class |
| `Regions`, `Sharding`, `ShardLaws`, `ShardingRuns`, `ShardCluster` | ranges, the sharded cluster, what each operation writes, its refinement of a map, its class |
| `Pd`, `PdRuns`, `PdObjects` | PD's metadata and operations, their invariants, class `PdMetadataStore` |
| `FieldCodec`, `Serialization`, `Catalog`, `CatalogFile`, `Formats` | field maps, stores and regions as fields, the PD catalog; all formats against tables and examples |
| `PdDisk`, `PdService` | PD with its catalog file and restarts, class `PdServer` |
| `Gateway`, `GatewayLaws`, `GatewayRuns`, `GatewayClient` | routes and retries, agreement of the two tables, coarse caches, the classes |
| `ManyGateways` | runs of any number of gateways with splits in two halves |

Code that updates objects in place is a class whose methods are proved equal to functions on values; the laws are proved
of those functions. Collections that the source mutates are fields of type `seq` or `map`.

## What the model takes as given

- A peer's own operations are serialised (docs/IMPLEMENTATION_PLAN.md:1271): its RPC handlers do not run while it is
  inside an election or a proposal. Other peers interleave freely.
- A handler's writes are durable when it answers (docs/IMPLEMENTATION_PLAN.md:1274), and crashes fall between handlers. The
  gap between applying entries and storing the new positions is treated by itself (`RecoveryCondition`).
- Peer ids are non-zero and distinct, because 0 is stored for "no vote"; ids, terms and log lengths fit 64 bits.
- Append requests are contiguous. For requests built by leaders this is proved (`DeliveryDefined`).
- User keys are non-empty and do not start with `raft/`, `region/`, `pd/` or `local/`.
- A peer that joins an in-process region gets an empty directory.
- Splits are issued one at a time; requests through all gateways may fall between the two halves of one.
  `CrossedSplitsDisagree` shows what happens otherwise.
- A replication attempt that would read past the leader's own log (the back-off at
  src/store/distributed_region_node.cpp:336-340 does not bound the index) ends without an acknowledgement.

## What the code does not do

Some expected properties fail. The lemmas named give the failing case and the exact condition:

- A put command with an empty key and a non-empty value is read back as a put of the *value* as key (`PutRoundTrip`).
- A batch reads back as itself exactly when no key is empty (`BatchRoundTrip`). One with an empty key and value cannot be
  applied at all (`EmptyKeyBatchFails`). Replicas that apply several entries in one round then lose the ones after it while
  others do not (`EmptyKeyDiverges`); where the rounds are cut makes no difference exactly when every command before the
  cut applies or the later entries repeat what was last written (`CutLaw`, `CutNeverMatters`).
- A log line with an empty key does not read back; with an empty value it makes the next open of the engine fail
  (`LineRoundTrip`, `EmptyKeyBreaksReopen`, `BatchDurable`).
- A stored Raft entry reads back exactly when its command is not empty (`EntryRoundTrip`).
- After a crash between apply and persist, re-application restores the right data exactly when every key that differs is
  written again (`RecoveryCondition`). That is so from the moment the node has caught up (`RecoveryAfterCatchUp`), and not
  always before (`RecoveryTooEarly`).
- Back-off replication succeeds exactly when the follower accepts the first position or the one at its own end
  (`ReplicationOutcome`); a follower with two conflicting last entries is never repaired (`ConflictIsNotRepaired`).
- PD's default region has one peer per store exactly when the caller names each store once (`PdRuns.BootstrapKeeps`).
- A restart of PD does not always bring back its counters: a bootstrap refused for an unknown store has drawn ids without
  writing the catalog (`RefusedBootstrapIsForgotten`, `RestartExactly`).
- One retry is not enough while a split has reached PD and not the store: a put into the right half with a fresh route is
  refused as stale (`CallOutcome`, `RequestOutcome`).
- Two splits that cross leave PD and the store naming different regions for the same id (`CrossedSplitsDisagree`).
- An in-process region does not always reopen: after its leader, peer 1, was removed, start-up over the directories loses
  the election, because the others have voted in the term that peer 1 stands for (`RemovedLeaderBlocksReopen`).
  `ReopenExactly` says for all directories when it comes back in step, `ReopensSameMap` for the sharded cluster.

The loop at src/store/single_region_cluster.cpp:190-192 has no effect; the peer list passed to
`RaftNode` is not used by any handler, so the model leaves it out.

## Model

| member | source | states |
|---|---|---|
| Codec.HexRoundTrip | src/storage/file_kv_engine.cpp:26-51 | decoding undoes hexadecimal encoding for every byte string |
| Codec.NumbersSort | src/raft/raft_storage.cpp:159-163 | digit strings of one length compare as the numbers they denote, which is why log keys are padded |
| Codec.PaddedWidth | src/raft/raft_storage.cpp:159-163 | every 64-bit index fills exactly the 20 columns of a log key |
| Order.AscendingUnique | src/storage/file_kv_engine.cpp:109-131 | iteration order of an ordered map is determined by its keys |
| KvEngine.ReapplyIsIdempotent | src/storage/file_kv_engine.cpp:99-105 | applying a mutation list again over any already applied prefix of it gives the map of applying it once |
| KvEngine.BatchDecides | src/storage/file_kv_engine.cpp:99-105 | two maps that differ only on keys a batch touches become equal by it |
| KvEngine.LineRoundTrip | src/storage/file_kv_engine.cpp:133-188 | a log line parses back to its mutation if and only if the key is not empty |
| KvEngine.EmptyKeyBreaksReopen | src/storage/file_kv_engine.cpp:147-188 | the failing case: an empty key and value leave a line on which replay reports an error |
| KvEngine.BatchDurable | src/storage/file_kv_engine.cpp:91-107 | a batch keeps every durable state durable if and only if none of its keys is empty |
| KvEngine.BatchDurableHere | src/storage/file_kv_engine.cpp:91-107 | it keeps a given state durable if and only if its lines parse and what they read back as does to the map what the batch does |
| KvEngine.FileKvEngine.WriteBatch | src/storage/file_kv_engine.cpp:91-107 | map and log change by exactly the batch, and replay still rebuilds the map |
| KvEngine.FileKvEngine.Get | src/storage/file_kv_engine.cpp:81-89 | the value of a present key, KeyNotFound otherwise |
| KvEngine.FileKvEngine.Replay | src/storage/file_kv_engine.cpp:147-188 | reopening a durable engine succeeds and gives the same map |
| KvEngine.FileKvEngine.Range | src/storage/file_kv_engine.cpp:121-131 | the lower-bound loop returns the sorted filter of the map by the range, empty bounds being open |
| KvEngine.FileKvEngine.Prefixed | src/storage/file_kv_engine.cpp:109-119 | the lower-bound loop returns the sorted filter of the map by the prefix |
| KvEngine.PrefixContiguous | src/storage/file_kv_engine.cpp:109-119 | keys with a common prefix are next to each other, so stopping at the first one without it loses none |
| KvCommand.PutRoundTrip | src/storage/kv_command.cpp:9-52 | a put command parses back if and only if the key is non-empty or the value is empty; otherwise the value is taken for the key |
| KvCommand.DeleteRoundTrip | src/storage/kv_command.cpp:13-63 | a delete command parses back for every key |
| KvCommand.BatchRoundTrip | src/storage/kv_command.cpp:17-92 | a batch command parses back if and only if none of its keys is empty |
| KvCommand.EmptyKeyBatchFails | src/storage/kv_command.cpp:64-92 | the failing case of a batch |
| KvCommand.PrintBatch | src/storage/kv_command.cpp:17-26 | the printing loop gives the batch format |
| KvCommand.ApplyKvCommand | src/storage/kv_command.cpp:28-95 | an encoded command acts as the direct mutations; one that does not parse changes neither map nor log |
| RaftPeer.RaftNode.BecomeFollower | src/raft/raft_node.cpp:25-31 | a higher term is adopted and clears the vote; otherwise only the role changes |
| RaftPeer.RaftNode.BecomeCandidate | src/raft/raft_node.cpp:33-37 | next term, a vote for itself |
| RaftPeer.RaftNode.HandleRequestVote | src/raft/raft_node.cpp:43-69 | the handler changes the state and answers as the transition function of `VoteExactly` does |
| RaftPeer.RaftNode.AppendEntries | src/raft/raft_node.cpp:94-109 | the append loop with conflict truncation is the recursive merge; it fails on an entry with index 0 |
| RaftPeer.RaftNode.HandleAppendEntries | src/raft/raft_node.cpp:71-118 | the whole handler: stale terms, the previous-entry test, the merge, the commit rule |
| RaftPeer.RaftNode.DeleteFrom | src/raft/raft_node.cpp:196-207 | the cut and both clamps |
| RaftPeer.RaftNode.Propose | src/raft/raft_node.cpp:120-135 | only a leader appends, at the next index and its own term |
| RaftPeer.RaftNode.SetCommitIndex | src/raft/raft_node.cpp:137-139 | the commit index is limited by the last log index |
| RaftPeer.RaftNode.TakeCommittedEntries | src/raft/raft_node.cpp:141-149 | hands out exactly the entries between applied and committed, and moves the applied index |
| RaftPeer.RaftNode.Restore | src/raft/raft_node.cpp:151-176 | accepts exactly the logs and positions that fit together and then becomes that follower; otherwise nothing changes |
| RaftLaws.VoteExactly | src/raft/raft_node.cpp:43-69 | a vote is granted if and only if the term is new to the voter, or its own with the vote free or for this candidate, and the candidate's last term and index are lexicographically at least the voter's; the answer and every field afterwards |
| RaftLaws.RefusedExactly | src/raft/raft_node.cpp:71-100 | which append requests are refused, what each refusal leaves of the receiver, and the match index it answers |
| RaftLaws.AcceptedExactly | src/raft/raft_node.cpp:71-118 | every other one is accepted: entries merged behind the previous one, commit index raised to the leader's or the end of the log, match index the end of the log |
| RaftLaws.MergeExactly | src/raft/raft_node.cpp:94-109 | on any log, the append loop keeps the entries whose terms agree and, from the first that differs, replaces the rest of the log, with both positions pulled back to the cut |
| RaftLaws.DeleteExactly | src/raft/raft_node.cpp:196-207 | what a cut leaves of the log and of both positions, and which indices it ignores |
| RaftLaws.CommitExactly | src/raft/raft_node.cpp:137-139 | the commit index asked for or the end of the log |
| RaftLaws.RestoreExactly | src/raft/raft_node.cpp:151-176 | the exact stored states that are taken over, with every field |
| RaftLog.MergeAlong | src/raft/raft_node.cpp:94-109 | merging a slice of a leader's log leaves the follower's log as it was or makes it the leader's prefix; a shared prefix survives and positions inside it are not clamped |
| RaftLog.FollowsLeader | src/raft/raft_node.cpp:71-118 | a follower that accepts a leader's slice holds the verified prefix and moves its commit index only to the leader's, inside it |
| RaftLog.AppendKeepsBelow | src/store/distributed_region_node.cpp:357-374 | nothing below the first entry of a request changes, so storing the log from there on is enough |
| RaftStorage.EntryRoundTrip | src/raft/raft_storage.cpp:39-58 | a stored entry parses back if and only if its command is not empty |
| RaftStorage.HardStateRoundTrip | src/raft/raft_storage.cpp:62-108 | loading returns the hard state that was saved |
| RaftStorage.SaveTouchesMeta | src/raft/raft_storage.cpp:62-80 | saving it changes no user key and no log key of any region |
| RaftStorage.LogKeysSort | src/raft/raft_storage.cpp:159-163 | log keys of a region sort by index |
| RaftStorage.LogPrefixesDisjoint | src/raft/raft_storage.cpp:117-163 | log keys of different regions have no common prefix scan |
| RaftStorage.LoadStored | src/raft/raft_storage.cpp:117-133 | the scan returns exactly the stored log, in index order |
| RaftStorage.AppendStored | src/raft/raft_storage.cpp:110-115 | appending an entry extends the stored log by it |
| RaftStorage.DeleteStored | src/raft/raft_storage.cpp:135-153 | deleting from an index leaves exactly the stored log below it |
| RaftStorage.Save | src/raft/raft_storage.cpp:62-80 | four meta keys in one batch; the engine stays durable |
| RaftStorage.Append | src/raft/raft_storage.cpp:110-115 | one put of the printed entry under its padded key; the engine stays durable |
| RaftStorage.Load | src/raft/raft_storage.cpp:117-133 | the loading loop, up to the first record that does not parse |
| RaftStorage.DeleteFrom | src/raft/raft_storage.cpp:135-153 | the deleting loop removes exactly the region's keys from the index on; the engine stays durable |
| RegionNode.ApplyIsMutate | src/store/distributed_region_node.cpp:376-387 | applying entries with good commands is one mutation list |
| RegionNode.CutLaw | src/store/distributed_region_node.cpp:376-387 | for all entries: one apply round over a + b is a round over a and one over b if every command of a applies, and otherwise ends inside a |
| RegionNode.CutCondition | src/store/distributed_region_node.cpp:376-387 | on a given map the cut makes no difference if and only if every command before it applies or the entries after it change nothing there |
| RegionNode.CutNeverMatters | src/store/distributed_region_node.cpp:376-387 | over all maps it never does if and only if every command before it applies or the later entries only repeat what was last written |
| RegionNode.EmptyKeyDiverges | src/store/distributed_region_node.cpp:376-387 | the failing case: a batch with an empty key and then a put leave different maps when applied in one round and in two |
| RegionNode.RecoveryCondition | src/store/distributed_region_node.cpp:153-154 | after a crash between apply and persist, re-application gives the right data if and only if every differing key is written again |
| RegionNode.RecoveryAfterCatchUp | src/store/distributed_region_node.cpp:153-154 | the condition holds from the moment the node has caught up with what it had applied |
| RegionNode.RecoveryTooEarly | src/store/distributed_region_node.cpp:153-154 | a case before that moment in which a later write stays visible |
| RegionNode.ApplyUser | src/storage/kv_command.cpp:28-95 | good commands act on user data alone and leave every system key |
| RegionNode.RestartIsInvisible | src/store/distributed_region_node.cpp:77-96 | what is stored at a handler boundary restores the same peer as a follower |
| RegionNode.VoteKeepsPeer | src/store/distributed_region_node.cpp:128-136 | a vote keeps storage equal to memory |
| RegionNode.AppendKeepsPeer | src/store/distributed_region_node.cpp:138-156 | so does an append that cuts nothing already applied |
| RegionNode.OfferKeepsPeer | src/store/distributed_region_node.cpp:226-235 | so does a proposal |
| RegionNode.CommitKeepsPeer | src/store/distributed_region_node.cpp:260-269 | so does commit, apply and persist, with the user map equal to the applied prefix |
| RegionNode.ClientCommandsAreGood | src/store/distributed_region_node.cpp:98-111 | what put, delete and batch propose for user keys always parses and writes user keys only |
| RegionServer.DistributedRegionNode.PersistHardState | src/store/distributed_region_node.cpp:345-355 | stores term, vote, commit and applied index, with 0 for no vote |
| RegionServer.DistributedRegionNode.PersistLogFrom | src/store/distributed_region_node.cpp:357-374 | the loop rewrites the stored log from an index on; the engine stays durable |
| RegionServer.DistributedRegionNode.ApplyCommitted | src/store/distributed_region_node.cpp:376-387 | the apply loop and its status: the first command that fails ends it, with the positions already moved; good entries keep the engine durable |
| RegionServer.DistributedRegionNode.HandleRequestVote | src/store/distributed_region_node.cpp:128-136 | vote, then persist |
| RegionServer.DistributedRegionNode.HandleAppendEntries | src/store/distributed_region_node.cpp:138-156 | append, then persist log, apply and persist positions, or only the hard state after a refusal |
| RegionServer.DistributedRegionNode.Bootstrap | src/store/distributed_region_node.cpp:77-96 | restores the stored state, starts fresh without one, reports an unreadable one |
| RaftElection.UpToDateKeeps | src/raft/raft_node.cpp:178-184 | the voter's comparison of last terms and indices: entries it holds are in the candidate's log, or an earlier leader already lacked them |
| RaftElection.FreshTerm | src/store/distributed_region_node.cpp:213-216 | nobody has won a term before its winner, since majorities share a voter |
| RaftReplication.LaterLeadersHold | src/store/distributed_region_node.cpp:237-261 | every leader of a later term started with the entries decided before |
| RaftReplication.AppendCommitted | src/raft/raft_node.cpp:101-113 | an append never cuts the receiver's committed prefix |
| RaftSafety.StepKeeps | src/store/distributed_region_node.cpp:128-387 | every step of the cluster keeps the invariant and extends the history |
| RaftSafety.ElectionSafety | src/raft/raft_node.cpp:33-69 | over every run, at most one peer is leader of a term, at any two moments, restarts included |
| RaftSafety.LogMatching | src/raft/raft_node.cpp:88-109 | over every run, two logs with equal terms at an index are identical up to it, and position i holds index i + 1 |
| RaftSafety.LeaderCompleteness | src/store/distributed_region_node.cpp:237-261 | over every run, who wins a higher term has the whole log for which a leader counted a majority |
| RaftSafety.StateMachineSafety | src/store/distributed_region_node.cpp:158-387 | over every run, two peers that applied index k applied the same entries up to k |
| RaftSafety.EqualAppliedEqualData | src/store/distributed_region_node.cpp:376-387 | over every run, peers with equal applied index serve the same user data |
| RaftSafety.CommitNeverReverts | src/raft/raft_node.cpp:196-207 | over every run, terms, commit and applied indices never go back and the committed prefix is never cut |
| RaftSafety.FollowerCommitRule | src/raft/raft_node.cpp:111-113 | over every run, a follower commits only what the accepted request carries or verifies, although it bounds the index by its own log |
| RaftSafety.DeliveryDefined | src/store/distributed_region_node.cpp:299-313 | over every run, every request in flight is well formed and its receiver sound |
| RaftSafety.RestartAlwaysWorks | src/store/distributed_region_node.cpp:77-96 | over every run, a restart at any moment succeeds and gives the same peer as a follower |
| Replication.ReplicateToStore | src/store/distributed_region_node.cpp:289-343 | the loop of eight attempts with back-off leaves the leader alone and the follower as the function says |
| Replication.ReplicationOutcome | src/store/distributed_region_node.cpp:289-343 | with two calls that get through it succeeds if and only if the follower is not ahead in term and accepts the first position or the one at its own end; otherwise its log is unchanged and every attempt is spent on it, unless its log is longer than the leader's |
| Replication.StuckAfterBackoff | src/store/distributed_region_node.cpp:335-340 | a follower that refuses the second position refuses every further attempt |
| Replication.EightAttempts | src/store/distributed_region_node.cpp:300-340 | a follower that refuses both positions is called eight times, or as often as calls get through |
| Replication.CatchUp | src/store/distributed_region_node.cpp:289-343 | for any gap, a follower whose log is a prefix takes the leader's log after exactly one call, or two when the first starts behind its end, if and only if that many get through |
| Replication.CatchUpKeepsPeer | src/store/distributed_region_node.cpp:138-156 | its storage stays in order, and a follower that caught up has applied all it knows committed |
| Replication.ConflictIsNotRepaired | src/store/distributed_region_node.cpp:335-340 | a follower whose last two entries conflict is never brought up to date |
| Replication.ConflictExample | src/store/distributed_region_node.cpp:335-340 | two leaders of terms 1 and 2 with two entries each are such a pair |
| Replication.CommitRuleIsSound | src/raft/raft_node.cpp:111-113 | a leader's request carries its whole suffix, so a matching follower commits only the leader's committed prefix |
| RegionGroup.AskOthers | src/store/distributed_region_node.cpp:183-211 | the vote loop: every peer that is reached runs its own handler, and the granted votes are counted |
| RegionGroup.Elect | src/store/distributed_region_node.cpp:158-218 | a leader stays; another peer stands only when PD named it, and leads if and only if its vote and the granted ones are a majority |
| RegionGroup.TransferLeader | src/store/distributed_region_node.cpp:119-126 | only the target accepts the transfer, takes the hint and stands |
| RegionGroup.SendOthers | src/store/distributed_region_node.cpp:237-254 | the replication loop: every other peer is brought forward by its own attempts, and the acknowledgements are counted |
| RegionGroup.Replicate | src/store/distributed_region_node.cpp:226-287 | append, replicate, and on a majority commit, apply, persist and broadcast; a lost majority or a command that does not apply ends it earlier |
| RegionGroup.ProposeAndReplicate | src/store/distributed_region_node.cpp:220-271 | a client's write, election included, on the real states of all peers |
| RegionGroup.WriteOutcome | src/store/distributed_region_node.cpp:220-287 | with peers behind the leader a write succeeds if and only if the reached ones and the leader are a majority; then every peer the broadcast reaches ends with the leader's log, positions and user data, whatever it had missed |
| RegionRuns.ElectExactly | src/store/distributed_region_node.cpp:158-218 | a leader stays; a peer that PD does not name is refused and changes nothing; a named one stands in the next term and leads if and only if the set of itself and the reached peers that grant is more than half |
| RegionRuns.WriteExactly | src/store/distributed_region_node.cpp:220-287 | whatever the peers hold: the entry stays in the leader's log, is committed if and only if the set of the leader and the acknowledging peers is more than half, and the others are told if and only if all that was pending applied |
| RegionRuns.ElectionIsRun | src/store/distributed_region_node.cpp:158-218 | an election is a sequence of protocol steps: it starts, delivers ballots, counts grants, and wins exactly when that step is then enabled; all peers end as the operation says |
| RegionRuns.WriteIsRun | src/store/distributed_region_node.cpp:220-287 | a write is one too: it proposes, sends, counts, and commits exactly when that step is then enabled, then sends again |
| RegionRuns.ElectionExtends | src/store/distributed_region_node.cpp:158-218 | from any resting state of a run, whether the peer leads, is named or not, the call extends the run |
| RegionRuns.AnsweredWriteStays | src/store/distributed_region_node.cpp:220-287 | so does a write, and once it is answered with success every peer that wins a later term, however the run goes on, has its entry |
| RegionCluster.SingleRegionCluster.ElectLeader | src/store/single_region_cluster.cpp:125-173 | the election loop over the replicas, its count and its two outcomes |
| RegionCluster.SingleRegionCluster.TransferLeader | src/store/single_region_cluster.cpp:175-180 | nothing when already leader, an election otherwise |
| RegionCluster.SingleRegionCluster.Distribute | src/store/single_region_cluster.cpp:334-359 | the replication loop stores the entry where it is accepted and counts the acceptances |
| RegionCluster.SingleRegionCluster.BroadcastCommit | src/store/single_region_cluster.cpp:373-400 | the commit loop stops at the first failure |
| RegionCluster.SingleRegionCluster.ProposeAndReplicate | src/store/single_region_cluster.cpp:318-371 | the whole write path with its error exits |
| RegionCluster.SingleRegionCluster.AddPeer | src/store/single_region_cluster.cpp:182-235 | refusals, and the new replica built from the leader's Raft state, log and user entries |
| RegionCluster.SingleRegionCluster.RemovePeer | src/store/single_region_cluster.cpp:237-255 | refusals, the erased replica, and the election when it was the leader |
| RegionCluster.SingleRegionCluster.Put | src/store/single_region_cluster.cpp:257-259 | a put is the replicated put command |
| RegionCluster.SingleRegionCluster.Batch | src/store/single_region_cluster.cpp:265-270 | an empty batch is done at once, any other is the replicated batch command |
| RegionCluster.CollectUserPuts | src/store/single_region_cluster.cpp:199-209 | the loop turns a scan into puts of its user entries, in order |
| GroupLaws.ElectExactly | src/store/single_region_cluster.cpp:125-173 | on any group: the peer stands in the next term with its own vote, all others run their handlers, and it leads if and only if the set of it and those that grant is more than half |
| GroupLaws.ProposeExactly | src/store/single_region_cluster.cpp:318-371 | on any group with a leader: the entry is stored by the leader and by those that take it, committed if and only if they are more than half, and broadcast if and only if all that was pending applied |
| GroupLaws.ProposeWithoutLeader | src/store/single_region_cluster.cpp:318-327 | without a replica that leads a proposal is refused and changes nothing |
| GroupLaws.ReceiveExactly | src/store/single_region_cluster.cpp:346-357 | a follower that takes an entry stores it and its hard state; one that refuses stores nothing |
| GroupLaws.FollowExactly | src/store/single_region_cluster.cpp:379-397 | a follower on the commit broadcast: refused in an older term; otherwise it commits up to the leader's index or its own end, applies what is new, and stores the positions only when all of it applied |
| GroupLaws.BroadcastStops | src/store/single_region_cluster.cpp:373-400 | the broadcast ends at the first follower that fails, with its status; those before it have followed, those behind it are untouched |
| Lockstep.ElectionSucceeds | src/store/single_region_cluster.cpp:125-173 | among aligned replicas whoever stands wins, everyone else follows, logs stay |
| Lockstep.WriteSucceeds | src/store/single_region_cluster.cpp:318-400 | a write to a group in step succeeds and leaves all replicas with the new entry committed and applied |
| Lockstep.WriteData | src/storage/kv_command.cpp:28-95 | and the data changes by exactly the command |
| GroupRuns.AddPeerKeeps | src/store/single_region_cluster.cpp:182-235 | a new peer joins in step as a follower with the leader's term, vote and log, all of it applied, and all user data, and its directory brings exactly that back; refused if and only if store or id is taken |
| GroupRuns.RemovePeerKeeps | src/store/single_region_cluster.cpp:237-255 | a peer leaves without loss, refused if and only if unknown or last; the others keep their order, and only if the leader left does anything change for them: the first of them then leads the next term with every vote |
| GroupRuns.TransferKeeps | src/store/single_region_cluster.cpp:175-180 | leadership moves to any member and only to a member |
| GroupRuns.BootstrapFresh | src/store/single_region_cluster.cpp:89-123 | empty directories give a group in step led by peer 1 |
| GroupRuns.LockstepRuns | src/store/single_region_cluster.cpp:125-400 | after any run the replicas are in step and hold what a plain map would; no lost election or majority is ever reported; and if every vote of the term was for the leader it still is, peers that joined included |
| GroupRuns.ReplicasAgree | src/store/single_region_cluster.cpp:125-400 | in step means: equal terms, logs and user maps, everything committed and applied, exactly one leader, the recorded one |
| Reopen.BootstrapStatus | src/store/single_region_cluster.cpp:89-173 | over any directories that hold peers 1 to n, start-up elects peer 1 if and only if the peers that can still vote for it are a majority with it |
| Reopen.ReopenExactly | src/store/single_region_cluster.cpp:44-173 | it gives a group in step if and only if all logs are peer 1's, no term is more than one ahead of its term, and those voters are a majority; the group then has that log and its data, and every replica's vote is for the leader if and only if all could vote for it |
| Reopen.RemovedLeaderBlocksReopen | src/store/single_region_cluster.cpp:237-255 | the failing case: after the leader, peer 1, has left, reopening all directories loses the election |
| Reopen.ReopenKeeps | src/store/single_region_cluster.cpp:44-123 | a group numbered from 1 reopens with the same log and data |
| ReopenShards.ReopensSameMap | src/store/multi_region_cluster.cpp:24-45 | the sharded cluster reopens to the same map if and only if the directories of every region satisfy the condition of `ReopenExactly` |
| Migration.ImportAt | src/store/multi_region_cluster.cpp:149-163 | putting the moved entries copies the user entries of the range and touches nothing else |
| Migration.ExportAt | src/store/multi_region_cluster.cpp:149-167 | deleting them removes those keys and nothing else |
| Regions.SplitCuts | src/region/region.cpp:5-9 | a split key cuts a range so that every key of it lies on exactly one side |
| Regions.CanSplitIs | src/pd/pd_server.cpp:96-99 | a key cuts a range if and only if it lies above its start and below its end |
| Regions.StartsOverlap | src/region/region.cpp:5-9 | a region starting inside another one shares a key with it |
| ShardCluster.MultiRegionCluster.FindRegionByKey | src/store/multi_region_cluster.cpp:265-272 | the search loop finds the first region containing the key |
| ShardCluster.MultiRegionCluster.Put | src/store/multi_region_cluster.cpp:48-54 | routes to that region's group or reports that there is none |
| ShardCluster.MultiRegionCluster.Delete | src/store/multi_region_cluster.cpp:56-62 | the same for a delete |
| ShardCluster.MultiRegionCluster.Batch | src/store/multi_region_cluster.cpp:64-79 | refuses a batch whose keys are not all in one region |
| ShardCluster.MultiRegionCluster.Get | src/store/multi_region_cluster.cpp:81-102 | reads the leader or the first store, by consistency level |
| ShardCluster.MultiRegionCluster.NextRegionId | src/store/multi_region_cluster.cpp:127-130 | the loop computes the id of `NextIdLeast` |
| ShardCluster.MultiRegionCluster.SplitRegion | src/store/multi_region_cluster.cpp:104-184 | the split with its refusals, migration batches and table update |
| ShardCluster.MultiRegionCluster.TransferLeader | src/store/multi_region_cluster.cpp:186-202 | the group's transfer, then the leader hint of the row |
| ShardCluster.MultiRegionCluster.AddPeer | src/store/multi_region_cluster.cpp:204-221 | the group's new peer, then the row |
| ShardCluster.MultiRegionCluster.RemovePeer | src/store/multi_region_cluster.cpp:223-247 | the group's departure, then the row |
| ShardCluster.CollectMoves | src/store/multi_region_cluster.cpp:150-159 | the loop builds the put batch and the delete batch of the user entries |
| ShardCluster.Boot | src/store/multi_region_cluster.cpp:13-46 | the start-up loop: one group per region, up to the first failure |
| ShardingRuns.GetReadsMap | src/store/multi_region_cluster.cpp:81-102 | a read of a user key at either consistency level returns what the represented map holds |
| ShardingRuns.BatchKeeps | src/store/multi_region_cluster.cpp:64-79 | a batch is performed on the map if and only if one region holds all its keys, and otherwise changes nothing |
| ShardingRuns.NextIdLeast | src/store/multi_region_cluster.cpp:127-130 | the new id is above every id in use, and the least such |
| ShardingRuns.SplitMoves | src/store/multi_region_cluster.cpp:104-184 | a split moves exactly the keys in [split key, end), each with its value; both rows get the old conf version and the next version, the right one the old end, the renumbered peers and the first as leader, no other row changes; refused if and only if the region is unknown or the key does not cut it, with which error |
| ShardingRuns.SplitTiles | src/store/multi_region_cluster.cpp:122-139 | the new table gives every key exactly one region |
| ShardingRuns.SplitKeeps | src/store/multi_region_cluster.cpp:104-184 | readers see the same map before and after a split |
| ShardingRuns.ShardsRefineMap | src/store/multi_region_cluster.cpp:48-247 | after any run of puts, deletes, batches, splits and membership changes every get equals the get of one plain map |
| ShardingRuns.BootstrapSound | src/store/multi_region_cluster.cpp:13-46 | start-up on empty directories with any list of regions gives a start for such runs if and only if there are stores and the regions tile the key space under distinct ids |
| ShardLaws.WriteGoesToOwner | src/store/multi_region_cluster.cpp:48-62 | on any cluster a write goes to the group of the first region that contains its key and to no other |
| ShardLaws.NoOwnerRefused | src/store/multi_region_cluster.cpp:48-102 | a key in no region is refused by writes and reads |
| ShardLaws.ReadGoesToReplica | src/store/multi_region_cluster.cpp:81-102 | a linearizable read is answered by the replica recorded as leader, an eventual one by the first store, whatever they hold |
| ShardLaws.RefusedSplit | src/store/multi_region_cluster.cpp:104-172 | on any cluster a split that does not succeed leaves the table as it was and changes at most the region's own group, by a delete batch that failed there |
| ShardLaws.TransferRow | src/store/multi_region_cluster.cpp:186-202 | a transfer moves the leader hint of that row alone, if and only if the target is a member of the group |
| ShardLaws.AddRow | src/store/multi_region_cluster.cpp:204-221 | a new voter at the end of that row alone, conf version up by one, if and only if neither store nor id is taken in the group |
| ShardLaws.RemoveRow | src/store/multi_region_cluster.cpp:223-247 | the peer goes from that row alone, a hint at it moves to the first that stays, conf version up by one, if and only if it is a member and not the last |
| PdObjects.PdMetadataStore.PutRegion | src/pd/metadata_store.cpp:45-52 | table and start-key index are written together; id 0 is refused |
| PdObjects.PdMetadataStore.GetRegionByKey | src/pd/metadata_store.cpp:62-80 | upper bound, one step back, containment test |
| PdService.PdServer.RegisterStore | src/pd/pd_server.cpp:22-39 | draws an id, or moves the counter past a fixed one, and writes the catalog |
| PdService.PdServer.StoreHeartbeat | src/pd/pd_server.cpp:41-54 | a known store is marked up with its heartbeat, and the catalog written |
| PdService.PdServer.BootstrapDefaultRegion | src/pd/pd_server.cpp:56-87 | the drawing loop; at an unknown store it ends after ids were drawn and without a write |
| PdService.PdServer.Reopen | src/pd/pd_server.cpp:13-20 | a new process reads the catalog file |
| PdService.PdServer.SplitRegion | src/pd/pd_server.cpp:89-141 | left keeps the id, right gets new ids, both versions rise |
| PdService.PdServer.AddPeer | src/pd/pd_server.cpp:143-174 | one new voter, configuration version up; three refusals |
| PdService.PdServer.RemovePeer | src/pd/pd_server.cpp:176-203 | the peer is dropped and a new leader hint set; unknown and last peers are refused |
| PdService.PdServer.TransferLeader | src/pd/pd_server.cpp:205-220 | only a member becomes leader |
| PdRuns.LookupIsScan | src/pd/metadata_store.cpp:62-80 | the index lookup returns a region if and only if a scan with ContainsKey finds it |
| PdRuns.RegisterKeeps | src/pd/pd_server.cpp:22-39 | a registering store gets an unused id or keeps the one it asked for, the counter stays above all ids, nothing else is touched, and everything stays consistent |
| PdRuns.HeartbeatKeeps | src/pd/pd_server.cpp:41-54 | a heartbeat of a known store sets its time and state "Up" and nothing else; an unknown one is refused |
| PdRuns.BootstrapEffect | src/pd/pd_server.cpp:56-87 | the default region row, index and counters field by field; an unknown store ends the call with exactly the ids drawn before it gone |
| PdRuns.BootstrapKeeps | src/pd/pd_server.cpp:56-87 | bootstrapping keeps everything consistent if and only if there is a region already, it is refused, or the caller names each store once |
| PdRuns.AddPeerEffect | src/pd/pd_server.cpp:143-174 | which of three errors or success; then one new voter with the next id behind the others, conf version up by one, and nothing else changes |
| PdRuns.RemovePeerEffect | src/pd/pd_server.cpp:176-203 | which error or success; then exactly that peer goes, the others keep their order, a leader that goes is followed by the first that stays, conf version up by one, and nothing else changes |
| PdRuns.TransferKeeps | src/pd/pd_server.cpp:205-220 | the leader hint moves if and only if the target is a member, with which error otherwise; nothing else changes and everything stays consistent |
| PdRuns.SplitKeeps | src/pd/pd_server.cpp:89-141 | a split happens if and only if the region is known and the key cuts it; then the left row differs in end key and version only, the right one has [key, old end), the same version, a new peer id for every store of the old row in its role and the first as leader; two index entries and the counters change, nothing else, and everything stays consistent |
| PdRuns.AddPeerKeeps | src/pd/pd_server.cpp:143-174 | so does adding a peer |
| PdRuns.RemovePeerKeeps | src/pd/pd_server.cpp:176-203 | so does removing one: the list stays non-empty and the leader a member |
| PdRuns.RunKeeps | src/pd/pd_server.cpp:22-220 | in every run: ranges disjoint and covering, exact index, peers non-empty, one per store, ids globally distinct and below the counters, leader a member |
| PdRuns.RoutingWorks | src/pd/pd_server.cpp:222-240 | in every reachable state with a region each key has exactly one region, the lookup returns it, and its leader leads to the store of the peer with that id |
| PdRuns.EpochsNeverDecrease | src/pd/pd_server.cpp:89-203 | in every run no region disappears and no epoch goes back |
| GatewayClient.RouteCache.GetByKey | src/gateway/route_cache.cpp:11-19 | the first cached region, in id order, that contains the key |
| GatewayClient.RouteCache.Put | src/gateway/route_cache.cpp:7-9 | one entry per region id |
| GatewayClient.RpcGatewayClient.ResolveRoute | src/gateway/rpc_gateway_client.cpp:294-329 | cache first, then PD, whose answer is cached |
| GatewayClient.RpcGatewayClient.CallStore | src/store/store_service.cpp:23-41 | the store validates the route against its own table before it acts |
| GatewayClient.RpcGatewayClient.CallStoreWithRouteRetry | src/gateway/rpc_gateway_client.cpp:351-404 | on a stale route: clear, ask PD, try once more |
| GatewayClient.RpcGatewayClient.Request | src/gateway/rpc_gateway_client.cpp:34-58 | put, delete and get: resolve, then call |
| GatewayClient.RpcGatewayClient.Batch | src/gateway/rpc_gateway_client.cpp:60-91 | resolves every key and refuses more than one region |
| GatewayClient.RpcGatewayClient.SplitRegion | src/gateway/rpc_gateway_client.cpp:117-132 | PD first, then the store, then an empty cache |
| GatewayLaws.ResolveExactly | src/gateway/rpc_gateway_client.cpp:294-329 | a route is the cached region with the least id that contains the key; without one PD's answer is used and cached |
| GatewayLaws.ServeExactly | src/store/store_service.cpp:23-41 | the store acts if and only if the route names the first region containing the key; otherwise stale epoch, or region not found when there is none |
| GatewayLaws.RetryExactly | src/gateway/rpc_gateway_client.cpp:351-404 | for any cache, PD and store: a second call is made if and only if the first reply is stale epoch, region not found or not leader; then with an empty cache and PD's route, and its reply is final |
| GatewayRuns.TablesAgree | src/store/store_service.cpp:23-41 | PD and the store map every key to the same region id |
| GatewayRuns.FreshRouteIsValid | src/store/store_service.cpp:23-41 | a route from PD passes the store's validation |
| GatewayRuns.OneRetrySuffices | src/gateway/rpc_gateway_client.cpp:351-404 | whatever route a call carries, it does exactly what the operation does and never returns a route error |
| GatewayRuns.RequestIsExecute | src/gateway/rpc_gateway_client.cpp:34-115 | for any cache content, put, delete and get through the gateway are the operations on the store |
| GatewayRuns.ResolveSame | src/gateway/rpc_gateway_client.cpp:294-329 | when every cached range contains all or none of each current region, all keys of a region resolve to one route |
| ManyGateways.CacheStaysCoarse | src/gateway/rpc_gateway_client.cpp:117-132 | caches stay like that through splits, whichever gateway made them, since ranges only get finer |
| GatewayRuns.BatchIsExecute | src/gateway/rpc_gateway_client.cpp:60-91 | with such a cache a batch is exactly the operation on the store: done if and only if one region holds all its keys, otherwise refused with nothing changed |
| GatewayRuns.BatchHarmless | src/gateway/rpc_gateway_client.cpp:60-91 | for any cache content at all a batch is that operation or is refused with nothing changed |
| GatewayRuns.SplitInSync | src/gateway/rpc_gateway_client.cpp:117-132 | PD and the store both split or both refuse with the same error, and the tables stay in step, versions and next ids included |
| ManyGateways.SplitIsTwoCalls | src/gateway/rpc_gateway_client.cpp:117-132 | a gateway's split is PD's half and then, if PD agreed, the store's half with an emptied cache |
| ManyGateways.CallOutcome | src/gateway/rpc_gateway_client.cpp:351-404 | also between the two halves of a split: a call is the operation on the store unless its key lies in the right half and its route does not name the old region; then it is refused as stale after its retry and nothing has changed |
| ManyGateways.RequestOutcome | src/gateway/rpc_gateway_client.cpp:34-115 | a put, delete or get is the operation if and only if its key is not in the right half of a split under way or the cache still has the old region for it |
| ManyGateways.BatchOutcome | src/gateway/rpc_gateway_client.cpp:60-91 | a batch without such keys is exactly the operation on the store |
| ManyGateways.BatchSafe | src/gateway/rpc_gateway_client.cpp:60-91 | any batch is the operation on the store or is refused with nothing changed |
| ManyGateways.TablesInScene | src/store/store_service.cpp:23-41 | PD and the store name the same region for a key if and only if it is not in the right half of a split under way, and under the same version but for that region, where PD is one ahead |
| ManyGateways.GatewaysServeMap | src/gateway/rpc_gateway_client.cpp:34-132 | in every run of requests through any number of gateways, with split halves apart: puts, deletes and gets act as on one map except those stalled by a split under way, which are refused and change nothing; a batch with no such key is done if and only if one region holds all its keys; the store's half of a split never fails |
| ManyGateways.CrossedSplitsDisagree | src/gateway/rpc_gateway_client.cpp:117-132 | two splits whose store halves arrive in the other order always leave PD and the store with different ids or ranges |
| ManyGateways.DefaultStart | src/pd/pd_server.cpp:56-87 | a default region with id 1 and epoch (1, 1) on both sides and gateways that have cached nothing start such runs |
| FieldCodec.FieldsRoundTrip | src/rpc/rpc_codec.cpp:39-75 | decoding undoes encoding for every map |
| FieldCodec.PrintFields | src/rpc/rpc_codec.cpp:39-45 | the printing loop, in key order |
| FieldCodec.ParseFields | src/rpc/rpc_codec.cpp:47-75 | the line loop with its three failures |
| Serialization.StoreRoundTrip | src/common/serialization.cpp:47-70 | a store's fields read back as the store, under any prefix and beside any other fields |
| Serialization.RegionRoundTrip | src/common/serialization.cpp:72-109 | so do a region's, peers included |
| Serialization.Int64RoundTrip | src/common/serialization.cpp:54-68 | a heartbeat printed signed and read unsigned comes back, negative ones too |
| Serialization.PeerKeysApart | src/common/serialization.cpp:80-85 | fields of different peers and of the region itself never share a name |
| Formats.HexDigitsAre | src/storage/file_kv_engine.cpp:26-35 | each byte prints as two digits of 0123456789abcdef, the high half first |
| Formats.HexReads | src/storage/file_kv_engine.cpp:37-51 | a string decodes if and only if it has an even number of hexadecimal digits of either case; what it decodes to prints as it in lower case |
| Formats.CommandExamples | src/storage/kv_command.cpp:9-15 | a put and a delete as text |
| Formats.BatchExample | src/storage/kv_command.cpp:17-26 | a batch of two as text: its length, then kind, key and value of each |
| Formats.LineExamples | src/storage/file_kv_engine.cpp:133-145 | log lines with and without a value |
| Formats.EntryExamples | src/raft/raft_storage.cpp:39-45 | an entry of each of the four kinds as text |
| Formats.LogKeyIs | src/raft/raft_storage.cpp:159-163 | a log key is its prefix, zeros up to 20 columns and the index |
| Formats.HardStateExample | src/raft/raft_storage.cpp:62-80 | the four keys and values of a hard state |
| Formats.ReplayReads | src/storage/file_kv_engine.cpp:147-188 | replay succeeds if and only if every non-empty line parses |
| Formats.HardStateReads | src/raft/raft_storage.cpp:82-108 | a hard state is read if and only if its four keys hold numbers, and is those numbers; without a term there is none |
| Formats.LogReads | src/raft/raft_storage.cpp:117-133 | a stored log is read if and only if every record under the region's prefix parses |
| Formats.StartUp | src/store/distributed_region_node.cpp:77-96 | a peer starts fresh without a hard state, otherwise as the follower that hard state and log describe, field by field; which error stops it when they cannot be read or do not fit |
| Formats.FieldsRead | src/rpc/rpc_codec.cpp:47-75 | field text is read if and only if every non-empty line has an equals sign with hexadecimal text on both sides |
| Formats.NoopsAndBadCommands | src/store/distributed_region_node.cpp:376-387 | a no-op changes nothing and stops nothing; a command that does not parse stops the apply loop with its error |
| Formats.StoreFieldNames | src/common/serialization.cpp:47-55 | the name under which each field of a store is written |
| Formats.RegionFieldNames | src/common/serialization.cpp:72-79 | the same for a region |
| Formats.PeerFieldNames | src/common/serialization.cpp:80-85 | the same for a peer |
| Formats.Defaults | src/common/serialization.cpp:57-109 | what missing fields read as |
| Formats.Unreadable | src/common/serialization.cpp:21-32 | a number that does not parse reads as the default of its field |
| CatalogFile.FillRegion | src/common/serialization.cpp:72-86 | the peer loop writes the region's fields |
| CatalogFile.ReadRegion | src/common/serialization.cpp:88-109 | the peer loop reads them, with the fallbacks for missing fields |
| CatalogFile.WriteCatalog | src/pd/pd_server.cpp:252-280 | the catalog text of the current tables |
| CatalogFile.LoadCatalog | src/pd/pd_server.cpp:282-326 | resets and refills the tables in the source's order; on a failure they are as far as they were filled |
| Catalog.CatalogRoundTrip | src/pd/pd_server.cpp:252-326 | loading what was persisted, over whatever was in memory, rebuilds the same stores, regions, start-key index and next ids |
| Formats.CatalogNames | src/pd/pd_server.cpp:252-276 | the names of the catalog's counters and the prefixes of its rows |
| PdDisk.StepLaw | src/pd/pd_server.cpp:22-220 | from a state that a restart would bring back, an operation leads to such a state if and only if it is not a bootstrap over an empty region table that names an unknown store |
| PdDisk.RestartExactly | src/pd/pd_server.cpp:13-326 | in every run with restarts anywhere: a restart brings back what is in memory if and only if no such bootstrap came since the last write or restart; otherwise all but the next region and peer ids, which are lower in the file; the metadata stays consistent either way |
| PdDisk.RefusedBootstrapIsForgotten | src/pd/pd_server.cpp:56-75 | the failing case: store 1 is registered, a bootstrap over 1 and 99 is refused, and a restart forgets the ids it drew |

## Left out

- TCP, the HTTP dashboard, the command line, configuration files and start-up: input and output.
- Real files: `kv.log`, `pd.catalog` and the stored Raft state are lines, text and maps; partial writes and disk errors are not modelled.
- A PD without a data directory, which never writes a catalog.
- Threads inside one process: the serialisation rule above is assumed.
- Reads on the distributed path: `DistributedRegionNode::Get` ignores the consistency level and makes no promise beyond the local engine.
- Dynamic store routing in the gateway, which opens connections itself; the injected-client path is modelled, and a route is its region without the leader store.
- The wrapping of store errors into RPC errors: replies keep the store's own error code.
- The field encoding of vote and append requests between stores: the step system passes them as values.
- A vote or append reply that cannot be decoded, which ends the caller's operation early. In `RegionGroup` a call either gets through with its reply or does not happen; requests handled whose replies are lost are steps of `RaftCluster`.
- Numbers that `std::stoull` reads from malformed text (leading spaces, trailing characters): such text is an error here.
- Store labels, which the catalog does not write either.
- `Snapshotter`, which is not wired into Raft; `Scheduler`, handler registration, status names, `GatewayServer`, `RStoneClient`: thin checks or forwarding.
- The region catalog of `MultiRegionCluster`: the same region fields as PD's catalog, whose round trip is proved.
- The peers in the right-hand row of `MultiRegionCluster::SplitRegion` (ids moved up by 1000 times the region id) do not describe the new group, which numbers its peers from 1; both are modelled as they are.
- Liveness: there is no election timer, and the back-off does not repair long conflicting suffixes; only safety is claimed for them.
