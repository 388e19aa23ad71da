/**
 What each handler of a Raft node does, as a function from the state before to the state after.
 RaftNode proves the in-place handlers against these; RaftCluster runs them as protocol steps.
 */
module RaftSpec {

  import opened Bytes
  import opened RaftTypes

  // ---------------------------------------------------------------- durable storage

  function KeepUpTo(entries: seq<Entry>, keepIndex: nat): seq<Entry> {
    if entries == [] then [] else
    var rest := KeepUpTo(entries[..|entries| - 1], keepIndex);
    var e := entries[|entries| - 1];
    if e.index <= keepIndex then rest + [e] else rest
  }

  function KeepAbove(entries: seq<Entry>, discardIndex: nat): seq<Entry> {
    if entries == [] then [] else
    var rest := KeepAbove(entries[..|entries| - 1], discardIndex);
    var e := entries[|entries| - 1];
    if e.index > discardIndex then rest + [e] else rest
  }

  function SaveHardState(s: NodeState): NodeState {
    s.(disk := s.disk.(term := s.currentTerm, votedFor := s.votedFor))
  }

  // ---------------------------------------------------------------- elections

  function BecomeFollower(s: NodeState, term: nat): NodeState {
    var s1 := s.(role := Follower, leaderId := NO_NODE);
    if term > s.currentTerm then SaveHardState(s1.(currentTerm := term, votedFor := NO_NODE)) else s1
  }

  /** m with v at every key in ks. */
  function Fill(m: map<NodeId, nat>, ks: set<NodeId>, v: nat): map<NodeId, nat> {
    map p | p in m.Keys + ks :: if p in ks then v else m[p]
  }

  /** The index the next entry will get. */
  function NextSlot(log: seq<Entry>): nat { |log| + 1 }

  function BecomeLeader(cfg: Config, s: NodeState): NodeState {
    s.(role := Leader, leaderId := cfg.id,
       nextIndex := Fill(s.nextIndex, cfg.peers, NextSlot(s.log)), matchIndex := Fill(s.matchIndex, cfg.peers, 0))
  }

  /** A candidate that has voted for itself. */
  function Standing(cfg: Config, s: NodeState): NodeState {
    SaveHardState(s.(currentTerm := s.currentTerm + 1, role := Candidate, votedFor := cfg.id, votes := {cfg.id}))
  }

  /** The election timer fired on a node that is not leader. */
  function StartElection(cfg: Config, s: NodeState): NodeState {
    if 1 >= cfg.Quorum() then BecomeLeader(cfg, Standing(cfg, s)) else Standing(cfg, s)
  }

  function BuildVoteRequest(cfg: Config, s: NodeState): VoteRequest {
    VoteRequest(s.currentTerm, cfg.id, |s.log|, LastTerm(s.log))
  }

  /** `req` is the request this response answers. */
  function HandleVoteResponse(cfg: Config, s: NodeState, peer: NodeId, req: VoteRequest,
                              resp: VoteResponse): NodeState {
    if resp.term > s.currentTerm then BecomeFollower(s, resp.term)
    else if resp.voteGranted && s.role == Candidate && s.currentTerm == req.term then
      var s1 := s.(votes := s.votes + {peer});
      if |s1.votes| >= cfg.Quorum() then BecomeLeader(cfg, s1) else s1
    else s
  }

  function HandleRequestVote(s: NodeState, req: VoteRequest): (NodeState, VoteResponse) {
    if req.term < s.currentTerm then (s, VoteResponse(s.currentTerm, false)) else
    var s1 := if req.term > s.currentTerm then BecomeFollower(s, req.term) else s;
    if s1.votedFor != NO_NODE && s1.votedFor != req.candidateId then (s1, VoteResponse(s1.currentTerm, false))
    else if !UpToDate(req.lastLogIndex, req.lastLogTerm, s1.log) then (s1, VoteResponse(s1.currentTerm, false))
    else (SaveHardState(s1.(votedFor := req.candidateId)), VoteResponse(s1.currentTerm, true))
  }

  // ---------------------------------------------------------------- replication, follower side

  /** Term check shared by both leader RPCs; the sender is a current leader. */
  function HearLeader(s: NodeState, term: nat, leaderId: NodeId): NodeState {
    var s1 := if term > s.currentTerm then BecomeFollower(s, term) else s.(role := Follower);
    s1.(leaderId := leaderId)
  }

  /** The request's previous entry is one this node can look at. */
  predicate CanSee(s: NodeState, i: nat) { s.snapIndex <= i <= |s.log| }

  predicate PrevMatches(s: NodeState, req: AppendRequest) {
    req.prevLogIndex > 0 ==>
      && req.prevLogIndex <= |s.log|
      && (CanSee(s, req.prevLogIndex) ==> TermAt(s.log, req.prevLogIndex) == req.prevLogTerm)
  }

  /** The first index, not below the snapshot, from which `term` runs without interruption up to i. */
  function RunStart(s: NodeState, i: nat, term: nat): nat
    requires i <= |s.log|
  {
    if i > s.snapIndex + 1 && TermAt(s.log, i - 1) == term then RunStart(s, i - 1, term) else i
  }

  function Rejection(s: NodeState, req: AppendRequest): AppendResponse {
    if req.prevLogIndex > |s.log| then AppendResponse(s.currentTerm, false, 0, 0, |s.log| + 1)
    else
      var t := TermAt(s.log, req.prevLogIndex);
      AppendResponse(s.currentTerm, false, 0, t, RunStart(s, req.prevLogIndex, t))
  }

  /**
   The first index at or above i where the request brings something the log does not have:
   past the end of the log, or an entry of another term. prev + |entries| + 1 if there is none.
   */
  function Divergence(log: seq<Entry>, snapIndex: nat, prev: nat, entries: seq<Entry>, i: nat): (d: nat)
    requires prev < i <= prev + |entries| + 1
    ensures i <= d <= prev + |entries| + 1
    decreases prev + |entries| + 1 - i
  {
    if i == prev + |entries| + 1 then i
    else if i <= snapIndex || (i <= |log| && log[i - 1].term == entries[i - 1 - prev].term) then
      Divergence(log, snapIndex, prev, entries, i + 1)
    else i
  }

  /** The follower's log after taking over what the request brings, cutting off what contradicts it. */
  function Splice(log: seq<Entry>, snapIndex: nat, prev: nat, entries: seq<Entry>): seq<Entry> {
    var d := Divergence(log, snapIndex, prev, entries, prev + 1);
    if d == prev + |entries| + 1 || d > |log| + 1 then log else log[..d - 1] + entries[d - 1 - prev..]
  }

  /** What storage keeps when the request contradicts the log. */
  function Cut(disk: seq<Entry>, log: seq<Entry>, snapIndex: nat, prev: nat, entries: seq<Entry>): seq<Entry> {
    var d := Divergence(log, snapIndex, prev, entries, prev + 1);
    if d <= prev + |entries| && d <= |log| then KeepUpTo(disk, d - 1) else disk
  }

  /** Storage drops the conflicting tail, then gets all of the request's entries, also those the log already had. */
  function Persist(disk: seq<Entry>, log: seq<Entry>, snapIndex: nat, prev: nat, entries: seq<Entry>): seq<Entry> {
    Cut(disk, log, snapIndex, prev, entries) + entries
  }

  function Commands(entries: seq<Entry>): seq<ApplyMsg> {
    seq(|entries|, i requires 0 <= i < |entries| => Command(entries[i]))
  }

  function AdvanceCommitTo(s: NodeState, k: nat): NodeState
    requires k <= |s.log|
  {
    var newly := if s.commitIndex < k then s.log[s.commitIndex..k] else [];
    s.(commitIndex := k, out := s.out + Commands(newly))
  }

  function Min(a: nat, b: nat): nat { if a < b then a else b }

  /** The request's entries, in memory and in storage. */
  function TakeEntries(s: NodeState, req: AppendRequest): NodeState {
    s.(log := Splice(s.log, s.snapIndex, req.prevLogIndex, req.entries),
       disk := s.disk.(entries := Persist(s.disk.entries, s.log, s.snapIndex, req.prevLogIndex, req.entries)))
  }

  /** The accepting branch of AppendEntries. */
  function AbsorbEntries(s: NodeState, req: AppendRequest): NodeState {
    var s1 := TakeEntries(s, req);
    if req.leaderCommit > s1.commitIndex then AdvanceCommitTo(s1, Min(req.leaderCommit, |s1.log|)) else s1
  }

  function HandleAppendEntries(s: NodeState, req: AppendRequest): (NodeState, AppendResponse) {
    if req.term < s.currentTerm then (s, AppendResponse(s.currentTerm, false, 0, 0, 0)) else
    var s1 := HearLeader(s, req.term, req.leaderId);
    if !PrevMatches(s1, req) then (s1, Rejection(s1, req)) else
    var s2 := AbsorbEntries(s1, req);
    (s2, AppendResponse(s2.currentTerm, true, |s2.log|, 0, 0))
  }

  // ---------------------------------------------------------------- replication, leader side

  function Propose(cfg: Config, s: NodeState, data: Bytes): NodeState {
    if s.role != Leader then s else
    var e := Entry(|s.log| + 1, s.currentTerm, data);
    MaybeAdvanceCommit(cfg, s.(log := s.log + [e], disk := s.disk.(entries := s.disk.entries + [e])))
  }

  function Replicas(cfg: Config, s: NodeState, i: nat): set<NodeId> {
    set p | p in s.matchIndex && p != cfg.id && s.matchIndex[p] >= i
  }

  predicate Replicated(cfg: Config, s: NodeState, i: nat)
    requires i <= |s.log|
  {
    TermAt(s.log, i) == s.currentTerm && 1 + |Replicas(cfg, s, i)| >= cfg.Quorum()
  }

  /** The highest index up to i, above the commit index, that may be committed; the commit index if none. */
  function Committable(cfg: Config, s: NodeState, i: nat): (k: nat)
    requires i <= |s.log|
    ensures k == s.commitIndex || s.commitIndex < k <= i
  {
    if i <= s.commitIndex then s.commitIndex
    else if Replicated(cfg, s, i) then i
    else Committable(cfg, s, i - 1)
  }

  function MaybeAdvanceCommit(cfg: Config, s: NodeState): NodeState {
    var k := Committable(cfg, s, |s.log|);
    if k == s.commitIndex then s else AdvanceCommitTo(s, k)
  }

  /** What the leader would send to `peer` now; only when the peer's next entry is not compacted away. */
  function BuildAppend(cfg: Config, s: NodeState, peer: NodeId): AppendRequest
    requires At(s.nextIndex, peer) > s.snapIndex
  {
    var next := At(s.nextIndex, peer);
    AppendRequest(s.currentTerm, cfg.id, next - 1,
                  if 0 < next - 1 <= |s.log| then TermAt(s.log, next - 1) else 0,
                  if next <= |s.log| then s.log[next - 1..] else [],
                  s.commitIndex)
  }

  /** The highest index up to i and above the snapshot holding `term`; 0 if none. */
  function LastOfTerm(s: NodeState, i: nat, term: nat): (k: nat)
    requires i <= |s.log|
    ensures k <= i
  {
    if i <= s.snapIndex then 0
    else if TermAt(s.log, i) == term then i
    else LastOfTerm(s, i - 1, term)
  }

  function Backtrack(s: NodeState, resp: AppendResponse): nat {
    var k := if resp.conflictTerm > 0 then LastOfTerm(s, |s.log|, resp.conflictTerm) else 0;
    var next := if k > 0 then k + 1 else resp.conflictIndex;
    if next < s.snapIndex + 1 then s.snapIndex + 1 else next
  }

  /** The index of the last entry the request vouches for. */
  function Reach(req: AppendRequest): nat { req.prevLogIndex + |req.entries| }

  function HandleAppendResponse(cfg: Config, s: NodeState, peer: NodeId, req: AppendRequest,
                                resp: AppendResponse): NodeState {
    if resp.term > s.currentTerm then BecomeFollower(s, resp.term)
    else if s.role != Leader || s.currentTerm != req.term then s
    else if resp.success then
      var m := Reach(req);
      MaybeAdvanceCommit(cfg,
        if m > At(s.matchIndex, peer)
        then s.(matchIndex := s.matchIndex[peer := m], nextIndex := s.nextIndex[peer := m + 1])
        else s)
    else s.(nextIndex := s.nextIndex[peer := Backtrack(s, resp)])
  }

  // ---------------------------------------------------------------- snapshots

  /** A log of which only the last entry's term is known. */
  function UnknownLog(index: nat, term: nat): (log: seq<Entry>)
    ensures |log| == index && LastTerm(log) == if index == 0 then 0 else term
  {
    seq(index, i requires 0 <= i < index => Entry(i + 1, term, []))
  }

  /** The log a snapshot stands for: `covered` if it fits the snapshot's index and term. */
  function SnapshotLog(covered: seq<Entry>, index: nat, term: nat): (log: seq<Entry>)
    ensures |log| == index && (index > 0 ==> LastTerm(log) == term)
  {
    if |covered| == index && (index > 0 ==> LastTerm(covered) == term) then covered else UnknownLog(index, term)
  }

  function CompactLog(s: NodeState, data: Bytes, index: nat, term: nat): NodeState {
    if index <= s.snapIndex || index > s.commitIndex then s else
    var log' := if index <= |s.log| then s.log else SnapshotLog([], index, term);
    s.(log := log', snapIndex := index, snapTerm := term,
       disk := s.disk.(snapshot := data, snapIndex := index, snapTerm := term,
                       entries := KeepAbove(s.disk.entries, index)))
  }

  function ReceiveChunk(t: Transfer, req: SnapshotRequest): Transfer {
    var t1 := if req.offset == 0 then Receiving(req.lastIncludedIndex, req.lastIncludedTerm, []) else t;
    if t1.Receiving? && t1.index == req.lastIncludedIndex && |t1.data| == req.offset
    then t1.(data := t1.data + req.data)
    else t1
  }

  predicate ChunkFits(t: Transfer, req: SnapshotRequest) {
    req.offset == 0 || (t.Receiving? && t.index == req.lastIncludedIndex && |t.data| == req.offset)
  }

  /** The final chunk arrived: the snapshot replaces the whole log. */
  function Install(s: NodeState, t: Transfer, covered: seq<Entry>): NodeState
    requires t.Receiving?
  {
    s.(log := SnapshotLog(covered, t.index, t.term), snapIndex := t.index, snapTerm := t.term,
       commitIndex := if t.index > s.commitIndex then t.index else s.commitIndex,
       transfer := Idle,
       disk := s.disk.(snapshot := t.data, snapIndex := t.index, snapTerm := t.term,
                       entries := KeepAbove(s.disk.entries, t.index)),
       out := s.out + [Snapshot(t.data, t.index, t.term)])
  }

  /** `covered` are the entries the snapshot stands for; nothing but the abstract log depends on it. */
  function HandleInstallSnapshot(s: NodeState, req: SnapshotRequest, covered: seq<Entry>)
    : (NodeState, SnapshotResponse)
  {
    if req.term < s.currentTerm then (s, SnapshotResponse(s.currentTerm, false)) else
    var s1 := HearLeader(s, req.term, req.leaderId);
    if req.lastIncludedIndex <= s1.snapIndex then (s1, SnapshotResponse(s1.currentTerm, true)) else
    var t := ReceiveChunk(s1.transfer, req);
    if !ChunkFits(s1.transfer, req) then (s1.(transfer := t), SnapshotResponse(s1.currentTerm, false))
    else if !req.done then (s1.(transfer := t), SnapshotResponse(s1.currentTerm, true))
    else (Install(s1, t, covered), SnapshotResponse(s1.currentTerm, true))
  }

  function HandleSnapshotResponse(s: NodeState, peer: NodeId, req: SnapshotRequest, resp: SnapshotResponse): NodeState {
    if resp.term > s.currentTerm then BecomeFollower(s, resp.term)
    else if s.role != Leader || s.currentTerm != req.term || !resp.success || !req.done then s
    else if req.lastIncludedIndex > At(s.matchIndex, peer) then
      s.(matchIndex := s.matchIndex[peer := req.lastIncludedIndex],
         nextIndex := s.nextIndex[peer := req.lastIncludedIndex + 1])
    else s
  }

  // ---------------------------------------------------------------- crash and recovery

  /** A node newly started over what is on disk; `covered` is what the snapshot stands for. */
  function Restart(disk: Disk, covered: seq<Entry>): NodeState {
    NodeState(disk.term, disk.votedFor, SnapshotLog(covered, disk.snapIndex, disk.snapTerm) + disk.entries,
              disk.snapIndex, if disk.snapIndex > 0 then disk.snapTerm else 0,
              Follower, NO_NODE, disk.snapIndex, {}, map[], map[], Idle, disk, disk.snapIndex, [])
  }
}
