# A verified model of raftkv

raftkv is a replicated key-value store written in Go: Raft consensus (`raft/node.go`) over a write-ahead log
(`wal/wal.go`), feeding a state machine (`server/statemachine.go`) over an LSM storage engine (`storage/`). This
project models those four layers in Dafny and proves what they keep. `dafny verify dfyconfig.toml` covers all of it.

## How it is built

**Consensus.** `RaftSpec` says what each handler of a node does, as a function from the state before to the state
after, on a node that still has its whole log. `RaftNode` holds the node as the program has it: a class with mutable
fields, the compacted log behind its sentinel, the loops of the handlers, and `MemState` as its storage. Every method
is proved to do to the abstract state what the function says, so compaction is a data refinement. `RaftCluster` puts
nodes on a network that keeps every message for ever: a step may deliver it late, twice, out of order or never. Each
handler is one atomic step because each holds the node's lock. A run is any sequence of timeouts, votes, proposals,
replication, replies, snapshot chunks, compactions and restarts.

The safety argument has three layers. `RaftCore` and `RaftCoreProofs` are a protocol without messages that remembers
all ballots, elections, leader logs and acknowledgements; leader completeness is proved there from overlapping
quorums. `RaftInvariant`, `RaftMoves` and the `Raft...Steps` modules show that every step of the cluster is such a
sequence of protocol actions and keeps the invariant. `RaftSafety` and `RaftTheorems` state what follows for the nodes
of any run at any two moments. `RaftStream`, `RaftReplicas` and `KvReplicas` follow the entries and chunked snapshots
on to the application: the stream of each node is gapless, snapshots arrive byte for byte, and replicas agree.
`KvLives` follows the stores over restarts: a node comes back with whatever its tables had on disk, and the snapshots
the others get are those its own machine took. `RaftDurable` drops the condition on restarts for runs without repeated
batches.

The other half is that the protocol does not merely refuse. `RaftVoting` shows that of any two nodes one gets the vote
of the other, so that a majority can always elect one of its own; `RaftCommits` that in every state of every run a
leader has committed all it knows a majority to have; `RaftRollback` that the search for a common entry never goes back
behind what both logs have, and ends within as many rejections as the follower's log has terms. `RaftProgress` puts
these together: no state of any run is a dead end, for from each of them any majority without compacted logs can elect
a leader and commit whatever it is asked for. `RaftServes` follows this to the application, and `RaftCatchUp` brings up
a follower whose entries are compacted away through a chunked snapshot.

**State machine.** `StateMachine` has the server object with its table of waiting clients. `Replay` shows that which
writes take effect is decided by the log, and by where the table of sequence numbers was lost.

**Storage.** `Memtable`, `Merge`, `SSTable`, `SnapshotCodec`, `Layers` and `LsmEngine` go from the sorted buffer and
the k-way merge to the file formats and the engine object. `Fnv` has the hash of the bloom filter, and `LsmCrash` a
compaction that a crash cuts off. Everything is stated against the plain map the engine stands for. A directory is a
map from file numbers to the entries each file was written from; its bytes are the `TableFile` of those entries, and
all reading goes through the bytes. `Listing` shows that the bytes of a snapshot depend on the map alone, not on the
tables it is kept in.

**Write-ahead log.** `Wal` has records, replay, torn files and what is written behind a tear; `WalLog` has segments as
files of bytes, rolls, truncation and reopening, proved against a plain sequence for any list of calls; `WalCrash` has
a truncation that a crash cuts off.

**All together.** `StoreReplicas` has the engine take in the stream of a node. Whatever its tables came back with, in
every run in which losing the table of sequence numbers does no harm it holds the effect of the committed entries if
and only if what it started with does not show any more; with snapshotting off, as `NewKVServer` leaves it, that is so
as soon as the node has caught up with what it had committed before. Its memtables may be rotated, flushed and
compacted at any moment, and a crash then leaves on disk the map after some first part of the stream. `WalStorage`
follows what the handlers ask of storage down to the bytes of the write-ahead log, and reads them back at a restart as
the log the node had.

**Maps.** No definition builds a map by a comprehension whose body says something other than the maps it starts from
outside its domain. Dafny 4.11 takes such maps for equal when they agree on their domain, and also for different when
their bodies differ elsewhere, so that anything follows from two of them. `Fill`, `LiveMap`, `Above` and `Init` are
written with this in mind.

## Where the code keeps less than it promises

Each of these is stated as a concrete counterexample and as the exact condition under which the promise is kept.

- `HandleAppendEntries` stores every entry of a request, also those the log already has. After a repeated request a
  restarted node has an entry twice and hands it out twice (`RaftLimits.DoubledEntryIsHandedOut`). Storage stays in
  step with memory if and only if the batch brings only new entries (`RaftLimits.StaysInStepIff`). A restart step of
  the cluster therefore requires the two to be in step; in runs in which every accepted batch brings only new entries
  they always are (`RaftDurable.CarefulRunIsRun`).
- `HandleInstallSnapshot` throws away entries above the snapshot, also confirmed ones, and the node may then vote for a
  candidate without a committed entry (`RaftLimits.LateSnapshotDropsEntries`). Nothing is lost if and only if the log
  does not reach beyond the snapshot (`RaftLimits.InstallKeepsLogIff`). An installing step of the cluster therefore
  requires this. The application is not harmed by a late snapshot, which it skips; it is left behind the commit index
  if and only if a newer snapshot cannot be decoded (`KvReplicas.InstallLeadsToCommitIff`).
- The clamp of `nextIndex` to the first index after the leader's snapshot lets the search for a common entry loop
  (`RaftLimits.EmptyFollowerIsStuck`); it ends if and only if the follower has the entry the snapshot ends with
  (`RaftLimits.RollbackEndsIff`, in runs `RaftLimits.RollbackEndsInRunIff`).
- A rejection that arrives late takes `nextIndex` back behind `matchIndex`, and what is confirmed after that brings it
  forward again only if `matchIndex` grows. Until then every request carries the same entries again
  (`RaftTheorems.ConfirmedIsSentAgainIff`), and if the leader compacts meanwhile it sends its snapshot for ever
  (`RaftCatchUp.LateRejectionStalls`; a confirmed snapshot leads on if and only if `matchIndex` was below it,
  `RaftCatchUp.SnapshotLeadsOnIff`).
- `applySnapshot` forgets the table of sequence numbers, so replicas may disagree on a retry
  (`Replay.SnapshotForgetsRetries`). This never shows if and only if every write that is performed again only because of
  it leaves the map as it is (`Replay.ForgettingUnnoticedIff`).
- The state machine starts at index 0 over whatever the tables have, and replays. Until it has caught up it shows later
  writes (`KvReplicas.CatchUpShowsLater`). It holds the effect of the committed entries if and only if these touch every
  key the tables came back with (`KvReplicas.UnsnapshottedHoldsCommittedIff`, over whole lives
  `KvLives.BareLifeHoldsIff`). With snapshots the stream begins behind the node's own snapshot, which is not read at a
  restart: what was not flushed by then is lost (`KvReplicas.UnflushedSnapshotIsLost`). The exact condition is
  `StartGone` (`KvReplicas.ReplicaHolds`), and tables flushed at or behind the snapshot meet it
  (`KvReplicas.FlushedStartsRight`, over whole lives `KvLives.LifeHolds`).
- `notifyPending` does not compare terms (`StateMachine.WrongClientIsTold`, `KvReplicas.AnswerIsOwnIff`), and a second
  proposal at an index takes the place of a client that still waits (`StateMachine.FirstClientIsForgotten`,
  `StateMachine.WaitersAccountedIff`).
- `Engine.Get` takes a tombstone in a memtable for absence (`LsmEngine.DeletedKeyReadsBack`, `LsmEngine.Engine.Get`).
- A flush that completes during a compaction is lost (`LsmEngine.LostFlushShows`, `Layers.LostFlushUnnoticedIff`). Its
  file is found again at the next start, above or below the merge as the numbers fell: the map is right if and only if
  the flush has the higher number or the merge overrules nothing of it (`LsmEngine.LostFlushReturnsIff`). `Close`
  overwrites a pending memtable (`LsmEngine.ClosePendingShows`, `LsmEngine.ClosePendingUnnoticedIff`).
- A compaction removes the merged files newest first. If it is cut off in between, a deleted key is back after the
  restart (`LsmCrash.DeletedKeyComesBack`); the map is right if and only if the tables already removed delete nothing
  that is live in those left (`LsmCrash.CutOffRemovalIff`, of an engine `LsmCrash.StartCutOff`). Without snapshots
  catching up makes up for this, as for every loss in the tables (`KvLives.CatchingUpHeals`).
- `rotateAndFlush` on an empty memtable leaves it behind as the one to be flushed, which `doFlush` never writes, so that
  nothing is flushed again before the engine is closed (`LsmEngine.EmptyRotationBlocks`; the contract of
  `LsmEngine.Engine.RotateAndFlush` says exactly when).
- `SSTableReader.Get` reads on into the bloom filter (`Fnv.PhantomKey`, `SSTable.LookupAgreesIff`).
- `wal.Open` appends behind a torn tail (`Wal.LostBehindTornTail`). What is appended is replayed if and only if the file
  ends with a whole record (`Wal.AppendedAfterCutIff`, `WalLog.ReplayedBehindIff`). It also forgets where the log goes
  on if nothing but that was left in it (`WalLog.ReopenKeepsPositionIff`). A truncation that meets an intact record that
  does not parse has closed the file by then, and the next append ends the process
  (`WalLog.FailedTruncationIsFinal`; `WalLog.WAL.TruncateSuffix` says when it fails).
- A truncation removes all segments before it writes those entries again that it keeps. A crash in between loses them
  (`WalCrash.RemovalLosesAll`); a restart finds all that was to be kept if and only if nothing of it was in a file
  already removed, or not yet in the new one (`WalCrash.CutOffTruncationIff`).

## Model

| member | source | states |
|---|---|---|
| `RaftTheorems.ElectionSafety` | raft/node.go:399-460 | two leaders of the same term, at any two moments of any run and across restarts, are the same node |
| `RaftTheorems.LogMatching` | raft/node.go:569-619 | logs of any two nodes at any two moments that have the same term at an index are identical up to it |
| `RaftTheorems.LeadersHoldCommitted` | raft/node.go:969-994 | what any node knows to be committed is in the log of every leader of a later term |
| `RaftTheorems.StateMachineSafety` | raft/node.go:999-1027 | no two nodes, at any two moments, hand out different entries for the same index |
| `RaftTheorems.CommitClampIsSafe` | raft/node.go:628-635 | whatever request arrives, whenever, the follower's new commit index is the larger of its own and the leader's, is covered by the request, and the follower's log agrees with the leader's up to the end of the request |
| `RaftTheorems.LeaderSendsWholeTail` | raft/node.go:809-834 | in every run the next index stays between 1 and last + 1, and a request reaches to the end of the leader's log |
| `RaftServes.SoleNodeServes` | raft/node.go:295-299 | for every list of writes there is a run in which a cluster of one elects itself and hands out exactly these, in order, with storage in step |
| `RaftServes.CommitsAtOnce` | raft/node.go:270-300 | in a cluster of one a proposed write is committed and handed out where it is proposed |
| `RaftProgress.AnyMajorityServes` | raft/node.go:399-994 | no dead ends: every run, whatever its last state, goes on so that one of any majority without compacted logs leads, and all of the majority have that node's log with any given writes behind it and have committed all of it; the other nodes need not take part |
| `RaftProgress.SomeoneLeads` | raft/node.go:399-543 | from every state of every run any majority can elect one of its own, and no node loses an entry by it |
| `RaftProgress.CatchesUp` | raft/node.go:793-890 | whatever the leader takes a follower to have, rounds of requests and answers lead to the follower having the leader's whole log and the leader knowing it |
| `RaftServes.AnyMajorityHandsOut` | raft/node.go:399-1027 | in such a continuation each node of the majority hands out exactly what it had not yet handed out of that one log, in order |
| `RaftServes.FreshClusterServes` | raft/node.go:399-1027 | for every set of nodes, every majority of it and every list of writes there is a run at whose end all of the majority have handed out exactly these |
| `RaftVoting.GrantsIff` | raft/node.go:505-543 | a vote is granted if and only if the term is not over, the node has not given its vote of that term to another, and its log is not ahead of the candidate's |
| `RaftVoting.OneOfTwoGetsTheVote` | raft/node.go:1067-1075 | of any two nodes one gets the vote of the other in any term new to both |
| `RaftVoting.SomeoneIsElectable` | raft/node.go:505-543 | in every state of every run every group of nodes has a member that all of it would vote for |
| `RaftVoting.BeginningGrants` | raft/node.go:1067-1075 | at any two moments of any run, a node whose log is a beginning of the candidate's votes for it in a new term |
| `RaftVoting.MajorityElects` | raft/node.go:435-460 | in every state of every run a leader has the votes of more than half of the nodes, and a candidate has not yet |
| `RaftVoting.VoteIsKept` | raft/node.go:505-543 | along every run, restarts included, terms never fall and the vote of a term is never given to another |
| `RaftVoting.DeliveryIsHeeded` | raft/node.go:488-499 | whatever message is delivered, a later term is taken up and makes the node follow, and every answer tells the term of the answering node |
| `RaftVoting.RedirectsToLeader` | raft/node.go:302-308 | whoever leads in a follower's term, at any moment of the run, is the node that follower names to its clients |
| `RaftCommits.CommitsHighestDue` | raft/node.go:969-994 | the new commit index is the highest index of the leader's term that more than half of the cluster has, or the old one if there is none above it |
| `RaftCommits.LeaderCommitsAllDue` | raft/node.go:969-994 | in every state of every run a leader has committed every entry of its term that it knows more than half of the cluster to have |
| `RaftRollback.BacktrackIs` | raft/node.go:865-882 | the next attempt comes right behind the leader's last entry of the conflicting term, above its snapshot, if it has one, and else where the follower points, but not at a compacted entry |
| `RaftRollback.RunStartIs` | raft/node.go:580-593 | the follower points to the first entry of the uninterrupted run of that term, above its snapshot |
| `RaftRollback.RetryKeepsCommon` | raft/node.go:865-886 | in every state of every run no retry goes back behind what the leader and the follower have in common |
| `RaftRollback.RollbackIsFast` | raft/node.go:865-886 | where the search ends at all, the follower accepts after at most one rejection more than there are terms in its log |
| `RaftCatchUp.SnapshotBringsUp` | raft/node.go:645-963 | in every run a follower that lies behind the leader's snapshot, and of which the leader does not know better, can be brought up: it gets the snapshot in chunks, hands it out, takes the rest of the log, and the leader knows |
| `RaftCatchUp.SnapshotLeadsOnIff` | raft/node.go:952-958 | a confirmed snapshot leads the leader on to the entries behind it if and only if the match index was below it; otherwise nothing changes |
| `RaftCatchUp.LateRejectionStalls` | raft/node.go:865-886 | after a late rejection and a compaction, confirming the snapshot leaves the leader where it was, about to send it again |
| `RaftTheorems.ConfirmedIsSentAgainIff` | raft/node.go:854-860 | what a follower has confirmed is sent to it again if and only if a late rejection took the next index back behind the match index |
| `RaftTheorems.NewLeaderProbes` | raft/node.go:464-484 | the first request of a new leader to each peer asks about its last entry and carries none |
| `RaftTheorems.RunGrows` | raft/node.go:399-640 | no vote, election, leader log or acknowledgement of a run is ever taken back |
| `RaftSafety.RunIsGood` | raft/node.go:270-1027 | the cluster invariant holds in every state of every run |
| `RaftSafety.StepKeeps` | raft/node.go:270-1027 | every step of the cluster, whatever message it delivers, keeps the invariant and only adds to the record |
| `RaftCoreProofs.LeaderCompleteness` | raft/node.go:1067-1075 | an entry confirmed by a quorum in its own term is in the log every later leader was elected with, by the overlap of that quorum with the voters and the up-to-date rule |
| `RaftCoreProofs.ElectKeeps` | raft/node.go:432-457 | a quorum of up-to-date votes elects a leader without breaking any protocol invariant |
| `RaftCoreProofs.AcceptKeeps` | raft/node.go:596-619 | a follower that cuts its log only at a difference with its leader keeps every acknowledgement that was not overruled |
| `RaftFollowerSteps.SpliceAccepts` | raft/node.go:596-619 | comparing terms only, the append loop ends with the leader's entries up to the last one sent |
| `RaftFollowerSteps.CheckedPrevAgrees` | raft/node.go:569-594 | passing the consistency check means agreement with the leader, also when the previous entry is compacted away |
| `RaftLeaderSteps.LeaderCommits` | raft/node.go:969-994 | the count over the match indexes finds a quorum of acknowledgements |
| `RaftSnapshotSteps.InstallMove` | raft/node.go:691-737 | installing a snapshot that covers the log is an allowed move of the protocol |
| `RaftReplicas.StreamIsGapless` | raft/node.go:723-737 | in every run a node hands out each index from its start to its commit index once and in order, each entry being the one in its log, and each snapshot being byte for byte the one of the entries it stands for, whichever interleaved chunks it was put together from |
| `RaftReplicas.CommittedLogsAgree` | raft/node.go:999-1027 | what any two nodes know to be committed, at any two moments, is the same as far as both reach |
| `RaftStream.ReceiveKeepsTrue` | raft/node.go:671-713 | whichever stream a chunk belongs to, the buffer stays a prefix of the one true snapshot, and a final chunk that fits makes it the whole |
| `RaftTransfer.SendSnapshot` | raft/node.go:916-963 | the sending loop cuts the data into consecutive chunks that cover it, the last and only the last marked done |
| `RaftTransfer.CleanTransferInstalls` | raft/node.go:671-737 | chunks that arrive in order are each confirmed, and install exactly the data in memory and in storage, whatever buffer an earlier transfer left |
| `RaftTransfer.ConfirmedIsKept` | raft/node.go:671-737 | whatever chunk arrives, in whatever order, one that is confirmed is kept at its offset, in the buffer or, being the last, in the stored snapshot, or the node has the snapshot already |
| `RaftTransfer.RepeatedTransferIsConfirmed` | raft/node.go:666-674 | chunks of a snapshot the node already has are each confirmed as well, and change nothing but that it has heard of the leader |
| `RaftLimits.StaysInStepIff` | raft/node.go:596-626 | after an accepted request storage equals memory if and only if the batch is empty or its first entry is new |
| `RaftLimits.RestartRestoresLogIff` | raft/node.go:198-233 | a restarted node has the log it had if and only if storage was in step |
| `RaftDurable.CarefulRunIsRun` | raft/node.go:198-233 | with crashes at any moment, a run in which every accepted batch brings only new entries is a run of the cluster, and in each of its states every node would come back with the log it has |
| `RaftLimits.RepeatedBatchIsDoubled` | raft/node.go:622-626 | a repeated request leaves a restarted node with the entry at two indexes |
| `RaftLimits.DoubledEntryIsHandedOut` | raft/node.go:229-233 | that node passes the leader's consistency check and hands the entry out twice |
| `RaftLimits.CompactionFreesStorage` | raft/node.go:747-777 | a compaction up to any committed index above the snapshot leaves in storage exactly the entries above it, and a node restarted from there has the log it had; any other changes nothing |
| `RaftLimits.InstallKeepsLogIff` | raft/node.go:715-722 | installing keeps the entries the node holds, and storage in step, if and only if the log ends at or before the snapshot |
| `RaftLimits.LateSnapshotDropsEntries` | raft/node.go:671-722 | a late snapshot takes a committed entry away and makes the node vote for a candidate without it |
| `RaftLimits.CompactionDoesNotShow` | raft/node.go:548-640 | a compacted node ends AppendEntries with the same log, storage, commit index, deliveries and answer as an uncompacted one, but that a conflict index is raised to the first index in memory |
| `RaftLimits.CompactionNeverShows` | raft/node.go:548-640 | so it is for every request that arrives at any node at any moment of any run |
| `RaftLimits.RejectionLowersNext` | raft/node.go:865-886 | between logs of one run every rejection strictly lowers the next index, down to the first the leader has in memory |
| `RaftLimits.RollbackEndsIff` | raft/node.go:865-886 | the search for a common entry ends from every next index if and only if the follower has the end of the leader's snapshot; without a snapshot always |
| `RaftLimits.RollbackEndsInRunIff` | raft/node.go:865-886 | the same of any leader and any follower of its term in any state of any run |
| `RaftLimits.RollbackEnds` | raft/node.go:865-886 | it then ends within as many retries as the next index says |
| `RaftLimits.EmptyFollowerIsStuck` | raft/node.go:880-886 | a leader that compacted and a follower with an empty log never come together |
| `RaftNode.Node.constructor` | raft/node.go:198-233 | starting takes up term, vote, snapshot position and entries from storage |
| `RaftNode.Node.LogPos` | raft/node.go:1037-1046 | an index is found in memory if and only if it is neither compacted away nor beyond the log, and then at the entry of the full log |
| `RaftNode.Node.LastLogTerm` | raft/node.go:1052-1057 | the last term in memory is the last term of the full log |
| `RaftNode.Node.CandidateLogUpToDate` | raft/node.go:1067-1075 | the election restriction, decided from memory, is that of the full log |
| `RaftNode.Node.BecomeFollower` | raft/node.go:488-499 | refines stepping down on the full-log state, with the term saved |
| `RaftNode.Node.BecomeLeader` | raft/node.go:464-484 | refines winning: tracking of every peer restarts behind the last entry |
| `RaftNode.Node.StartElection` | raft/node.go:399-430 | refines standing for election; the vote request describes the full log |
| `RaftNode.Node.HandleVoteResponse` | raft/node.go:435-460 | refines counting a vote |
| `RaftNode.Node.HandleRequestVote` | raft/node.go:505-543 | refines voting, with the same answer |
| `RaftNode.Node.CheckPrev` | raft/node.go:569-594 | passes if and only if the full-log check passes, and otherwise gives its conflict hint |
| `RaftNode.Node.AppendNew` | raft/node.go:596-619 | the entry-by-entry loop brings about the splice of the full log, and storage loses exactly the conflicting tail |
| `RaftNode.AfterAll` | raft/node.go:596-619 | taking the entries one by one amounts to one cut at the first difference and one append |
| `RaftNode.Node.HandleAppendEntries` | raft/node.go:548-640 | refines AppendEntries, with the same answer |
| `RaftNode.Node.AdvanceCommitTo` | raft/node.go:999-1027 | hands out exactly the entries between the old and the new commit index |
| `RaftNode.Node.MaybeAdvanceCommit` | raft/node.go:969-994 | refines committing the highest index of the current term that a quorum has (RaftCommits.CommitsHighestDue) |
| `RaftNode.Node.CountReplicas` | raft/node.go:978-988 | counts this node and the peers known to have the entry |
| `RaftNode.Node.Propose` | raft/node.go:270-300 | a leader appends the command behind its last entry and says where |
| `RaftNode.Node.BuildAppend` | raft/node.go:793-834 | builds the full-log request if and only if the peer's next entry is in memory |
| `RaftNode.Node.NextAfterConflict` | raft/node.go:865-882 | the scan for the conflicting term gives the full-log backtracking |
| `RaftNode.Node.HandleAppendResponse` | raft/node.go:841-890 | refines the handling of an answer |
| `RaftNode.Node.HandleInstallSnapshot` | raft/node.go:645-740 | refines reassembly and installation |
| `RaftNode.Node.CompactLog` | raft/node.go:747-777 | dropping the entries from memory leaves the full log as it was |
| `RaftNode.Node.HandleSnapshotResponse` | raft/node.go:938-960 | refines the handling of an answer to a chunk |
| `RaftNode.MemState.TruncateSuffix` | raft/memstate.go:50-61 | keeps the entries up to an index, in order |
| `RaftNode.MemState.TruncatePrefix` | raft/memstate.go:84-95 | keeps the entries above an index, in order |
| `StateMachine.Server.Apply` | server/statemachine.go:303-379 | applies an entry, remembers the sequence number, and answers the client waiting for the index |
| `StateMachine.Server.InstallSnapshot` | server/statemachine.go:256-297 | replaces map, table and position, or nothing if stale or undecodable, and answers every covered waiter |
| `StateMachine.Server.HandOver` | server/statemachine.go:218-236 | routes a message to the one or the other |
| `StateMachine.Server.Register` | server/statemachine.go:131-144 | a proposed write makes its client the one that waits for the index |
| `StateMachine.Server.NotifyPending` | server/statemachine.go:385-397 | answers and forgets the waiter of an index, if there is one |
| `StateMachine.DropCovered` | server/statemachine.go:286-295 | the loop over the waiters drops and answers exactly those at or below the snapshot |
| `StateMachine.ToldOkIff` | server/statemachine.go:303-379 | over any history the client waiting for an entry gets one answer, and is told of success if and only if the entry was applied before, is a put or a delete, or is a retry |
| `StateMachine.ToldSuperseded` | server/statemachine.go:286-295 | over any history a snapshot that loads leaves exactly the clients above it waiting, tells each of the others once that its entry was superseded, and nobody else anything |
| `StateMachine.ServeAccounts` | server/statemachine.go:117-157 | no message loses a waiter or answers one twice; only a proposal at a taken index drops one |
| `StateMachine.WaitersAccountedIff` | server/statemachine.go:117-157 | over any history every proposal waits or has its one answer if and only if no index was taken twice |
| `StateMachine.WrongClientIsTold` | server/statemachine.go:381-397 | a client whose entry lost its index to a later leader is told of success |
| `StateMachine.FirstClientIsForgotten` | server/statemachine.go:140-144 | of two proposals for one index, the first client neither waits nor is answered |
| `Replay.DedupPerformsCounted` | server/statemachine.go:303-379 | applying a log performs exactly the writes whose sequence number exceeds all earlier ones of their client, and leaves the highest number of every client in the table |
| `Replay.ReadsLastWrite` | server/statemachine.go:338-352 | after any log a key has the value of the last write that counts and touches it if that is a put, and none if it is a delete or there is none |
| `Replay.ToldOverLog` | server/statemachine.go:303-379 | over any log the client of an entry is told that it is corrupt if it does not parse, of success if it is a put or a delete or repeats a write of its client, and else that the operation is unknown |
| `Replay.ReplayRestoresData` | server/statemachine.go:303-379 | replaying entries 1 to n with an empty table over the map after any prefix gives the map after n entries |
| `Replay.ForgettingUnnoticedIff` | server/statemachine.go:275-281 | over a whole log, a machine that lost the table at entry m agrees at every later entry with one that did not if and only if no write that counts only from m on would change the map |
| `Replay.SameFromIff` | server/statemachine.go:303-379 | the same entries make the same of two maps if and only if the maps agree on every key that no write that counts touches |
| `Replay.EffectAbsorbs` | server/statemachine.go:303-313 | replaying entries b to n over a map that already has them up to q comes to the same as replaying them over the map at b |
| `Replay.PerformsFrom` | server/statemachine.go:303-379 | a machine that starts at entry m with an empty table performs exactly the writes that count from m on |
| `Replay.SnapshotForgetsRetries` | server/statemachine.go:275-281 | a retry makes a replica that installed a snapshot disagree with one that applied the entries |
| `KvReplicas.AppliesNextIndex` | server/statemachine.go:218-313 | every command of a gapless stream is for the index after the last applied one and is applied; the first is for the one after the start |
| `KvReplicas.InstallLeadsToCommitIff` | server/statemachine.go:256-297 | an installed snapshot takes the application to the commit index if and only if it decodes or is not ahead; in the latter case nothing changes |
| `KvReplicas.ReplicaHolds` | server/statemachine.go:218-379 | in every run, retries and all, whatever map a machine was started on: fed by its node it has performed the entries since its table was lost, on the last snapshot or on that map; this is what the committed entries amount to if and only if a snapshot came or the map was right for every key these entries leave alone |
| `KvReplicas.ReplicaHoldsCommitted` | server/statemachine.go:218-379 | where losing the table does no harm, it holds the effect of exactly the committed entries under the same condition, and only then |
| `KvReplicas.ReplicaReads` | server/statemachine.go:338-352 | in every run a replica that holds the effect of the committed entries has under each key the value of the last committed write that counts and touches it, if that is a put, and else none |
| `KvReplicas.UnsnapshottedHoldsCommittedIff` | server/kvserver.go:62-89 | without snapshots, over whatever tables, it holds that effect if and only if the committed entries touch every key the tables came back with |
| `KvReplicas.FlushedStartsRight` | storage/engine.go:217-247 | tables flushed at or behind the node's start, by a machine that was right there, are right again for every later entry |
| `KvReplicas.CatchUpShowsLater` | server/kvserver.go:62-89 | a restarted machine that has replayed one of two flushed puts shows both |
| `KvReplicas.UnflushedSnapshotIsLost` | raft/node.go:198-233 | a restart behind a snapshot whose writes were not flushed goes on without them |
| `KvReplicas.ReplicasAgree` | server/statemachine.go:218-379 | replicas that committed up to the same index hold the same map, at whatever moments, if what they were started on does not show any more and they lost their tables at the same entry, or nowhere where it does harm |
| `KvLives.LifeIsFaithful` | server/statemachine.go:242-250 | the loop is closed: in every life in which each node snapshots the map its own machine has, where that map is sound, every snapshot of the run is the one of the entries it stands for |
| `KvLives.OwnSnapshot` | server/statemachine.go:226-250 | what a node's own machine writes right after applying an entry is the snapshot of the log up to that entry |
| `KvLives.MachineSoundIff` | server/statemachine.go:218-379 | anywhere in its stream, where losing the table has done no harm, a machine has the effect of its entries if and only if what it was started on does not show any more |
| `KvLives.LifeHolds` | server/kvserver.go:62-89 | over any number of crashes, the tables flushed at whatever moments behind the node's snapshot: a replica that has caught up with all its node ever committed holds what the committed entries amount to |
| `KvLives.BareLifeHoldsIff` | server/kvserver.go:62-89 | with snapshotting off, crashes and flushes at any moments: a replica holds the effect of exactly the committed entries if and only if these touch every key its tables came back with, and as soon as it has caught up they do |
| `KvLives.CatchingUpHeals` | server/statemachine.go:303-313 | without snapshots, whatever the tables lost or kept too long: if every key they have was ever written, a replica that has caught up holds the effect of exactly the committed entries |
| `KvReplicas.AnswerIsOwnIff` | server/statemachine.go:381-397 | the entry handed out for a proposal's index is that proposal if and only if it carries its term |
| `Memtable.Search` | storage/memtable.go:80-82 | binary search splits the entries at the key |
| `Memtable.Table.Put` | storage/memtable.go:56-62 | the table says the new value for the key and the same for all others, and stays sorted |
| `Memtable.Table.Delete` | storage/memtable.go:65-71 | the table says that the key is deleted |
| `Memtable.Table.Get` | storage/memtable.go:75-93 | the live value for the key, if the table has one |
| `Memtable.Table.Insert` | storage/memtable.go:121-137 | replacing or shifting keeps one sorted entry per key |
| `Merge.MergeEntries` | storage/sstable.go:360-416 | the merge loop computes the merge; its result is strictly sorted, has no tombstones, and its map is the later-input-wins override with deleted keys removed |
| `Merge.MergedMeaning` | storage/sstable.go:360-416 | the same of the merge as a function, for any number of sorted inputs |
| `Merge.SortChangesNothing` | storage/sstable.go:410-413 | any sort of a strictly sorted list by key is that list |
| `SSTable.AddKey` | storage/sstable.go:329-333 | sets the seven slots of the key, in place |
| `SSTable.FilterHasKeys` | storage/sstable.go:329-342 | the filter has no false negatives |
| `SSTable.FilterBit` | storage/sstable.go:329-333 | a byte of the filter is set if and only if it is a slot of some key |
| `SSTable.MightContain` | storage/sstable.go:335-342 | passes a key if and only if all its slots are set |
| `SSTable.Write` | storage/sstable.go:52-115 | the loop writes data block, filter and footer |
| `SSTable.TableRoundTrip` | storage/sstable.go:126-167 | a written file opens, with its filter, and reading it brings back exactly the entries |
| `SSTable.FileBytes` | storage/sstable.go:52-115 | the bytes of a table of one short entry: lengths, filter offset, filter size, count and magic number, lowest byte first |
| `SSTable.OpensIff` | storage/sstable.go:126-167 | a file opens if and only if it ends with the bytes of the magic number and its footer points into it |
| `SSTable.IterateAll` | storage/sstable.go:240-305 | the reading loop gives all records before the filter |
| `SSTable.Get` | storage/sstable.go:178-236 | the lookup of a key behind the filter |
| `SSTable.LookupAgreesIff` | storage/sstable.go:178-236 | the lookup agrees with the list for keys that are present, below the largest, or stopped by the filter; for others if and only if the bytes behind the data do not read as a record for the key |
| `SSTable.PhantomFound` | storage/sstable.go:192-233 | every table of smaller keys whose filter bytes read as the header of a put of the key [1], and pass that key, has a value for it made of filter bytes |
| `Fnv.PhantomKey` | storage/sstable.go:346-351 | with the hash the program has, 32-bit FNV-1a, a table of three printable keys behind a NUL in which a fourth, never written, is found in the bytes of the filter |
| `SnapshotCodec.EncodeSnapshot` | storage/snapshot.go:109-131 | the loop writes all pairs |
| `SnapshotCodec.DecodeSnapshot` | storage/snapshot.go:133-166 | the loop reads all pairs, and fails if the data ends within one |
| `SnapshotCodec.ImageRoundTrip` | storage/snapshot.go:109-166 | decoding undoes encoding |
| `SnapshotCodec.PairBytes` | storage/snapshot.go:109-131 | the bytes of a short pair: key length, key, value length, value, lengths lowest byte first |
| `SnapshotCodec.CutDecodesIff` | storage/snapshot.go:133-166 | snapshot data cut off anywhere decodes if and only if the cut lies between two pairs |
| `Encoding.FourBytesAre` | storage/snapshot.go:109-131 | a uint32 is written as its four bytes, lowest first |
| `Listing.ListsOnce` | storage/snapshot.go:30-56 | a map has only one sorted list of its keys and values |
| `Listing.SnapshotIs` | storage/snapshot.go:30-56 | the bytes of a snapshot are decided by the map, whatever tables it is kept in |
| `Listing.SnapshotDecodes` | storage/snapshot.go:109-166 | the snapshot of any map of short keys and values decodes to that map |
| `Layers.MergeKeepsData` | storage/engine.go:274-325 | one merged table in place of all tables lets the same data show |
| `Layers.LostFlushUnnoticedIff` | storage/engine.go:318-326 | losing tables flushed during a compaction goes unnoticed if and only if what they say is hidden or known anyway |
| `Layers.FirstHitIsNewest` | storage/engine.go:139-147 | the first table, newest first, that has the key says what the whole stack of tables says |
| `LsmEngine.Engine.constructor` | storage/engine.go:341-372 | opening takes up all tables of a directory, newest first, skips files that do not open, and goes on numbering behind all of them |
| `LsmEngine.Engine.Put` | storage/engine.go:84-103 | the engine's map has the new value and is otherwise the same |
| `LsmEngine.Engine.Delete` | storage/engine.go:106-115 | the engine's map loses the key and is otherwise the same |
| `LsmEngine.Engine.Get` | storage/engine.go:119-150 | where table lookups can be trusted, Get equals lookup in the map if and only if no memtable tombstone covers a live value further down |
| `LsmEngine.DeletedKeyReadsBack` | storage/engine.go:119-150 | put, flush, delete, get: the key is gone from the map and is read back |
| `LsmEngine.TrustedIff` | storage/sstable.go:178-236 | which table lookups can be trusted |
| `LsmEngine.Engine.DoFlush` | storage/engine.go:217-247 | a memtable that is not empty becomes the newest table, an empty one stays where it is, and the map stays the same |
| `LsmEngine.Engine.RotateAndFlush` | storage/engine.go:191-214 | nothing happens while a memtable waits; otherwise the active one becomes the newest table and none waits, but that an empty one is left waiting; the map stays the same |
| `LsmEngine.EmptyRotationBlocks` | storage/engine.go:191-228 | after the flusher has run once on an empty memtable, of whatever is written from then on, however often it runs, nothing reaches a table |
| `LsmEngine.Engine.FinishCompaction` | storage/engine.go:290-335 | the merge of the captured tables becomes the only table, and their files are removed |
| `LsmEngine.Engine.DoCompaction` | storage/engine.go:274-335 | with no flush in between the map stays the same, and so does the one the tables alone stand for; at most one table is left |
| `LsmCrash.CutOffRemovalIff` | storage/engine.go:318-330 | with the merge on disk and the first k merged tables removed, the rest stands for the map of all if and only if what is removed deletes nothing that is live in what is left |
| `LsmCrash.StartCutOff` | storage/engine.go:341-372 | an engine started over such a directory has the merge on top of the tables left, and the right map under the same condition |
| `LsmCrash.NoneRevivedAtEnds` | storage/engine.go:328-330 | the condition is met before the first removal and after the last |
| `LsmCrash.RevivedWasThere` | storage/engine.go:318-351 | whatever shows after such a start was in one of the merged tables |
| `LsmCrash.DeletedKeyComesBack` | storage/engine.go:328-330 | a put and a newer tombstone, of which only the tombstone's file has been removed: the key is back |
| `LsmEngine.Engine.Close` | storage/engine.go:153-173 | all is flushed and the map stays the same, but for a pending memtable that is overwritten |
| `LsmEngine.ClosePendingUnnoticedIff` | storage/engine.go:158-168 | that overwriting goes unnoticed if and only if what it says is hidden or known anyway |
| `LsmEngine.LostFlushShows` | storage/engine.go:318-326 | a value flushed during a compaction is replaced by its predecessor |
| `LsmEngine.LostFlushReturnsIff` | storage/engine.go:300-351 | after a restart the file of a lost flush counts again, where its number puts it; the map is then right if and only if that is above the merge, or the merge overrules nothing that was flushed |
| `LsmEngine.OpenAfterLostFlush` | storage/engine.go:341-372 | so it is of an engine opened over such a directory |
| `LsmEngine.ClosePendingShows` | storage/engine.go:158-168 | a pending value is gone after Close |
| `LsmEngine.Reopen` | storage/engine.go:57-81 | opening the directory of an engine that crashed gives the map its tables alone stand for; after a close, the same map |
| `LsmEngine.Engine.Snapshot` | storage/snapshot.go:30-56 | the bytes decode to the engine's map, across both memtables and all tables, and are the one snapshot of that map |
| `LsmEngine.Engine.LoadSnapshot` | storage/snapshot.go:62-101 | the engine's map becomes the decoded one, or stays if nothing decodes |
| `LsmEngine.Restore` | storage/snapshot.go:30-101 | loading one engine's snapshot into another gives the second the map of the first |
| `StoreReplicas.StoreRestores` | storage/snapshot.go:30-166 | an engine's snapshot of the state after some entries is read back as what these entries amount to |
| `StoreReplicas.TakeSnapshot` | server/statemachine.go:242-250 | every engine that holds the effect of some entries writes the same snapshot of it, the one the cluster expects |
| `StoreReplicas.Ship` | raft/node.go:916-963 | an engine's map crosses snapshot, chunks, reassembly and loading unchanged into another engine |
| `StoreReplicas.TakeInOn` | server/statemachine.go:218-379 | an engine that takes in a stream of commands and snapshots goes through the states of the machine |
| `StoreReplicas.Session` | storage/engine.go:175-247 | so it does with rotations, flushes and compactions at whatever moments, and its tables always have the map after some first part of the stream |
| `StoreReplicas.CrashAfter` | storage/engine.go:57-81 | an engine opened after a crash of such a session has the map after some first messages of the stream, and nothing of the others |
| `StoreReplicas.EngineHoldsCommittedIff` | server/statemachine.go:218-379 | in every run, where losing the table does no harm, an engine fed by its node over whatever its tables came back with holds the effect of exactly the committed entries if and only if what it started with does not show any more |
| `StoreReplicas.EngineSurvives` | server/kvserver.go:62-89 | with snapshotting off, over any number of crashes, an engine that has caught up holds the effect of exactly the committed entries |
| `Wal.ReadSegment` | wal/wal.go:423-471 | the loop reads all records up to the first that is not intact |
| `Wal.TornSegment` | wal/wal.go:423-471 | a segment cut off anywhere reads as exactly the entries whose records are wholly there |
| `Wal.RecordBytes` | wal/wal.go:362-378 | the bytes of a short record: length and checksum, lowest byte first, then the payload |
| `Wal.DamageShowsIff` | wal/wal.go:444-466 | a record whose payload was damaged passes for intact if and only if the checksum is the same |
| `Wal.ReadsUpToDamage` | wal/wal.go:423-471 | replay brings back all entries before a record the checksum shows to be damaged, and none behind it |
| `Wal.CutReadsPrefix` | wal/wal.go:423-471 | any readable file cut off anywhere reads as a beginning of what it held |
| `Wal.ReadBackIff` | wal/wal.go:423-471 | records written behind any file are read back behind its entries if and only if it has no torn tail; otherwise not at all |
| `Wal.AppendedAfterCutIff` | wal/wal.go:78-82 | after a crash at byte n of a segment, appended records are read back if and only if n ends a record |
| `Wal.UncaughtReads` | wal/wal.go:444-466 | if torn bytes and what follows pass for a record, an entry that was never written is read, or nothing can be |
| `Wal.LostBehindTornTail` | wal/wal.go:78-82 | whatever the checksum, records that fit into the missing part of a torn one are lost |
| `WalLog.WAL.CreateSegment` | wal/wal.go:382-396 | a new segment takes its place in the order of names, unless its name is taken |
| `WalLog.WAL.WriteRecord` | wal/wal.go:362-378 | a record is added to the current segment, and the size follows the bytes |
| `WalLog.WAL.AppendOne` | wal/wal.go:148-160 | an entry comes behind all others if and only if the file it needs, if it needs one, sorts behind the current one; a new file is begun only where the record would have taken the current one over the limit, and a record that fits a file leaves every file it writes within it |
| `WalLog.WAL.AppendBatch` | wal/wal.go:139-169 | where every file it needs sorts behind the current one, the whole new state of the log: entries, current segment, its size and the last index, across any number of segment rolls; a batch that fits the current file needs none; records that each fit a file leave every file written within the limit; it is fatal if and only if a truncation has failed before and there is an entry to write |
| `WalLog.StaysInFileIff` | wal/wal.go:139-169 | a batch of new entries goes to the current file as a whole if and only if it fits there |
| `WalLog.AppendedWithinLimit` | wal/wal.go:153-158 | records that each fit a file never make the current file outgrow the limit |
| `WalLog.WAL.ReadAll` | wal/wal.go:173-192 | replay gives the contents, read back from the bytes in the order of names |
| `WalLog.WAL.TruncateSuffix` | wal/wal.go:197-255 | the entries up to an index remain, in one segment named 1, with its size and last index; if and only if a record does not parse it fails, leaving the files as they are and no file to write to |
| `WalLog.WAL.TruncatePrefix` | wal/wal.go:263-325 | the entries above an index remain, in one segment named for the next one, with its size and last index; if and only if a record does not parse it fails, leaving the files as they are and no file to write to |
| `WalLog.FailedTruncationIsFinal` | wal/wal.go:200-224 | after a failed truncation, whether or not another is tried, the next append is fatal |
| `WalCrash.CutOffTruncationIff` | wal/wal.go:228-254 | a truncation that a crash cuts off at any file removed or any byte written leaves a log that reads back all that was to be kept if and only if no entry of it was in a removed file, or is not yet wholly in the new one |
| `WalCrash.RemovalLosesAll` | wal/wal.go:294-310 | with the last file removed and nothing written yet, the log reads back empty whatever was to be kept |
| `WalLog.Open` | wal/wal.go:59-101 | opening resumes at the end of the last file, torn or not, with the index of its last whole record; fails if that file has an intact record that does not parse |
| `WalLog.PerformAll` | wal/wal.go:139-325 | any list of appends of fresh tails, truncations at both ends and reopenings makes of the replayed entries what it makes of a plain sequence |
| `WalLog.EntriesArePlain` | raft/memstate.go:35-95 | segments do not show in what the calls do to the entries |
| `WalLog.FreshAllAllowed` | wal/wal.go:399-407 | a caller that only appends fresh tails, judged by the plain sequence, never needs a file of a name that sorts wrongly |
| `WalLog.ReplayedBehindIff` | wal/wal.go:78-82 | records written to the last file of a readable directory are replayed behind all others if and only if it has no torn tail |
| `WalLog.CrashKeepsPrefix` | wal/wal.go:173-192 | a crash that cuts off the last file loses entries at the end only |
| `WalLog.ReopenKeepsPositionIff` | wal/wal.go:411-420 | opening again keeps the last index after a truncation if and only if an entry is left or none was discarded |
| `WalStorage.WalHoldsLog` | raft/node.go:596-626 | in every run without repeated batches, crashes included, what the handlers ask of storage appends only fresh tails and comes to the entries in memory above the snapshot |
| `WalStorage.RebuildLog` | raft/node.go:209-233 | a write-ahead log that was asked for this reads back, from its bytes, the log the node had |

## Left out

- Runs in which a node restarts with storage out of step, or installs a snapshot its log reaches beyond: the theorems are false of them; the exact conditions are stated per handler.
- RaftReplicas.StreamIsGapless: is about runs in which each snapshot given to `CompactLog` is the one of the entries it stands for, and chunks are cut from the stored snapshot; KvLives.LifeIsFaithful derives the former from nodes that snapshot their own map. A snapshot of a map that is not sound, taken during catch-up or after a harmful loss of the table, is outside these runs.
- KvLives.LifeHolds: asks that the tables a node comes back with were flushed at or behind its snapshot, that losing the table had done no harm by then, and that compactions are cut only where the map is sound; KvReplicas.ReplicaHolds has the exact condition for any tables. With snapshotting off nothing of this is asked (KvLives.BareLifeHoldsIff), nor even that the tables were ever whole (KvLives.CatchingUpHeals).
- StoreReplicas.Session: a rotation, flush, compaction or LoadSnapshot is one step; a flush during a compaction is in LsmEngine.LostFlushReturnsIff and a compaction cut off by a crash in LsmCrash.CutOffRemovalIff. A crash inside LoadSnapshot, between removing the old tables and flushing the new one, is not modelled.
- LsmEngine.Engine.Put: keys and values of 4 GiB and more, whose lengths do not fit the file formats, are excluded; so are table files of 2^64 bytes and more in the flushing and snapshot methods.
- WalLog.WAL.AppendBatch: payloads of 4 GiB and more are excluded; segment numbers are ordered as numbers, which agrees with the file names up to sixteen digits.
- Wal.AppendedAfterCutIff: excludes torn bytes that pass for an intact record together with what is written behind them, which the checksum makes unlikely; Wal.UncaughtReads says what happens then.
- Wal.ReadBackIff: the same exclusion.
- WalLog.ReplayedBehindIff: the same exclusion.
- WalStorage.WalHoldsLog: payloads of 4 GiB and more are excluded; runs with repeated batches are, because the promise fails in them. Each call of the log is one step; WalCrash.CutOffTruncationIff has a truncation cut off by a crash.
- StoreReplicas.EngineHoldsCommittedIff: assumes commands with keys and values below 4 GiB and snapshots that fit one table file.
- StoreReplicas.TakeInOn: the same limits on commands and snapshots.
- StoreReplicas.EngineSurvives: the same limits on commands.
- Terms, indexes and sequence numbers are unbounded; uint64 wrap-around is not modelled.
- RaftProgress.AnyMajorityServes: says that every run can go on to serve, not that it will: timers and randomised timeouts are left out, and a timeout is a step that may happen at any time. It is about majorities whose nodes have not compacted; with a compacted leader the search for a common entry need not end (RaftLimits.RollbackEndsIff), and RaftCatchUp.SnapshotBringsUp is about one follower.
- RaftCatchUp.SnapshotBringsUp: asks that the follower's log ends at or before the snapshot, as every installing step does, and that the match index is below it (RaftCatchUp.SnapshotLeadsOnIff).
- When the flusher and the compactor are woken (storage/engine.go:93-100 and 209-214): they may run at any moment.
- Goroutine scheduling, channel capacity, lock order: each region under a mutex is one atomic step; the vote counter of an election is the set of peers counted.
- I/O errors, fsync and rename: storage calls succeed, but for records that do not parse. A damaged table file either does not open or is taken as it is.
- Protobuf, JSON and CRC32: functions given as parameters, with unmarshal undoing marshal as the only law. So is the hash of the bloom filter, except in `Fnv`.
- The entry type field, metrics, logging, gRPC wiring (server/kvserver.go, server/transport.go), the client and the chaos harness: no protocol content.
- server/watch.go: a fan-out that would only add easy members.
- ReadValue and linearizable reads: ReadIndex exists only as a comment in the source.
- server/walstate.go: a thin wrapper over files and the write-ahead log.
