/** Entities of the consensus layer: log entries, RPC payloads and the state of one participant. */
module RaftTypes {

  import opened Bytes

  type NodeId = string

  /** The empty ID: no vote cast, no known leader. */
  const NO_NODE: NodeId := ""

  datatype Entry = Entry(index: nat, term: nat, data: Bytes)

  datatype Role = Follower | Candidate | Leader

  datatype VoteRequest = VoteRequest(term: nat, candidateId: NodeId, lastLogIndex: nat, lastLogTerm: nat)

  datatype VoteResponse = VoteResponse(term: nat, voteGranted: bool)

  datatype AppendRequest = AppendRequest(term: nat, leaderId: NodeId, prevLogIndex: nat, prevLogTerm: nat,
                                         entries: seq<Entry>, leaderCommit: nat)

  datatype AppendResponse = AppendResponse(term: nat, success: bool, matchIndex: nat,
                                           conflictTerm: nat, conflictIndex: nat)

  datatype SnapshotRequest = SnapshotRequest(term: nat, leaderId: NodeId, lastIncludedIndex: nat,
                                             lastIncludedTerm: nat, offset: nat, data: Bytes, done: bool)

  datatype SnapshotResponse = SnapshotResponse(term: nat, success: bool)

  /** What the node hands to the application: a committed entry, or a snapshot replacing all prior state. */
  datatype ApplyMsg = Command(entry: Entry) | Snapshot(data: Bytes, index: nat, term: nat)

  /** Reassembly buffer of a chunked snapshot transfer. */
  datatype Transfer = Idle | Receiving(index: nat, term: nat, data: Bytes)

  /** What survives a crash. */
  datatype Disk = Disk(term: nat, votedFor: NodeId, entries: seq<Entry>,
                       snapshot: Bytes, snapIndex: nat, snapTerm: nat)

  /** The static configuration: who this node is and who the other nodes are. */
  datatype Config = Config(id: NodeId, peers: set<NodeId>) {
    function Quorum(): nat { (1 + |peers|) / 2 + 1 }
  }

  /**
   One participant. `log` is the whole log, entry i at position i - 1, including the entries a
   snapshot has already swallowed; `snapIndex` says how many those are. The running program keeps
   only `log[snapIndex..]` behind a sentinel; RaftNode shows that it still behaves like this state.
   */
  datatype NodeState = NodeState(
    currentTerm: nat,
    votedFor: NodeId,
    log: seq<Entry>,
    snapIndex: nat,
    snapTerm: nat,
    role: Role,
    leaderId: NodeId,
    commitIndex: nat,
    votes: set<NodeId>,
    nextIndex: map<NodeId, nat>,
    matchIndex: map<NodeId, nat>,
    transfer: Transfer,
    disk: Disk,
    base: nat,               // the commit index the node started with
    out: seq<ApplyMsg>)      // everything handed to the application since then

  /** The term of the entry at index i; index 0 is the fixed dummy entry. */
  function TermAt(log: seq<Entry>, i: nat): nat
    requires i <= |log|
  {
    if i == 0 then 0 else log[i - 1].term
  }

  function LastTerm(log: seq<Entry>): nat { TermAt(log, |log|) }

  /** Go's map lookup: absent keys read as zero. */
  function At(m: map<NodeId, nat>, k: NodeId): nat { if k in m then m[k] else 0 }

  /** Section 5.4.1 of the Raft paper: the candidate's log is at least as up to date as ours. */
  predicate UpToDate(candLastIndex: nat, candLastTerm: nat, log: seq<Entry>) {
    if candLastTerm != LastTerm(log) then candLastTerm > LastTerm(log) else candLastIndex >= |log|
  }

  /** Every entry carries the index it is at. */
  ghost predicate Indexed(log: seq<Entry>) {
    forall j :: 0 <= j < |log| ==> log[j].index == j + 1
  }
}
