/** Steps of a follower that is sent a snapshot, chunk by chunk. */
module RaftSnapshotSteps {

  import opened Wrappers
  import opened RaftTypes
  import opened RaftSpec
  import opened RaftCore
  import opened RaftCoreProofs
  import opened RaftCluster
  import opened RaftInvariant
  import opened RaftMoves
  import opened RaftElectionSteps
  import opened RaftFollowerSteps

  ghost predicate Answers(reply: Message, n: NodeId, leader: NodeId, req: SnapshotRequest) {
    reply.SnapshotReply? && reply.src == n && reply.dst == leader && reply.snap == req
  }

  function SnapshotAnswer(m: Message, x: NodeState, covered: seq<Entry>): Message
    requires m.SnapshotCall?
  {
    SnapshotReply(m.dst, m.src, m.snap, HandleInstallSnapshot(x, m.snap, covered).1)
  }

  /** What an offered snapshot stands for was committed. */
  lemma OfferedIsCommitted(c: Core, leader: NodeId, req: SnapshotRequest)
    requires SnapshotOk(c, leader, req)
    ensures SnapFact(c, req.lastIncludedIndex, req.lastIncludedTerm, req.term)
  {
    var log := c.termLog[req.term];
    var t: nat, i: nat :| t <= req.term && CommittedBy(c, log, req.lastIncludedIndex, t, i);
    assert SnapFactBy(c, req.lastIncludedIndex, req.lastIncludedTerm, t, i);
  }

  /** Two committed claims about the same index name the same term. */
  lemma SnapFactsAgree(c: Core, index: nat, term: nat, term': nat, bound: nat)
    requires Complete(c) && SnapFact(c, index, term, bound) && SnapFact(c, index, term', bound)
    ensures term == term'
  {
    var t: nat, i: nat :| t <= bound && SnapFactBy(c, index, term, t, i);
    var u: nat, j: nat :| u <= bound && SnapFactBy(c, index, term', u, j);
    CommittedAgree(c, t, i, u, j, index);
  }

  lemma ReceivedOk(c: Core, x: NodeState, leader: NodeId, req: SnapshotRequest)
    requires SnapshotOk(c, leader, req) && req.term == x.currentTerm && TransferOk(c, x)
    ensures TransferOk(c, x.(transfer := ReceiveChunk(x.transfer, req)))
    ensures ChunkFits(x.transfer, req) ==>
              var t := ReceiveChunk(x.transfer, req); t.Receiving? && t.index == req.lastIncludedIndex
    ensures !ChunkFits(x.transfer, req) ==> ReceiveChunk(x.transfer, req) == x.transfer
  {
    OfferedIsCommitted(c, leader, req);
  }

  lemma InstallCases(x: NodeState, req: SnapshotRequest, covered: seq<Entry>)
    requires req.term <= x.currentTerm
    ensures var (x', resp) := HandleInstallSnapshot(x, req, covered);
            var x1 := Following(x, req.leaderId);
            if req.term < x.currentTerm then x' == x && !resp.success
            else if req.lastIncludedIndex <= x.snapIndex then x' == x1 && resp.success
            else if Installs(x, req) then x' == Install(x1, ReceiveChunk(x.transfer, req), covered) && resp.success
            else x' == x1.(transfer := ReceiveChunk(x.transfer, req)) && (req.done ==> !resp.success)
  {
  }

  lemma InstallRaises(x: NodeState, req: SnapshotRequest, covered: seq<Entry>)
    requires req.term > x.currentTerm
    ensures HandleInstallSnapshot(x, req, covered) == HandleInstallSnapshot(BecomeFollower(x, req.term), req, covered)
    ensures HandleInstallSnapshot(x, req, covered).0.currentTerm == req.term
    ensures Installs(x, req) <==> Installs(BecomeFollower(x, req.term), req)
  {
  }

  // ---------------------------------------------------------------- nothing to confirm yet

  lemma ChunkStoredMove(s: Cluster, m: Message, x': NodeState, reply: Message)
    requires Calm(s) && MsgOk(s.core, m) && m.SnapshotCall?
    requires x' == s.nodes[m.dst]
             || (m.snap.term == s.nodes[m.dst].currentTerm
                 && x' == Following(s.nodes[m.dst], m.snap.leaderId).(transfer := x'.transfer)
                 && TransferOk(s.core, x'))
    requires Answers(reply, m.dst, m.src, m.snap) && SnapshotReplyOk(s.core, m.dst, m.snap, reply.snapResp)
    ensures MoveOk(s, m.dst, x', {reply}, None)
  {
    NodeFacts(s, m.dst);
    FollowingOk(s.core, m.dst, s.nodes[m.dst], m.snap.leaderId);
    SentOne(s.core, m.dst, x', reply);
    QuietMove(s, m.dst, x', {reply});
  }

  // ---------------------------------------------------------------- confirming

  lemma ConfirmReplyOk(c: Core, n: NodeId, log': seq<Entry>, leader: NodeId, req: SnapshotRequest, reply: Message)
    requires n in c.peers && n in c.servers && leader in c.servers && leader != n && c.peers[n].term == req.term
    requires SnapshotOk(c, leader, req) && Grows(c, Accept(c, n, log', req.lastIncludedIndex))
    requires Answers(reply, n, leader, req)
    ensures MsgOk(Accept(c, n, log', req.lastIncludedIndex), reply)
  {
    SnapshotCarries(c, Accept(c, n, log', req.lastIncludedIndex), leader, req);
  }

  /** A node already past the snapshot holds everything it covers. */
  lemma PastMove(s: Cluster, n: NodeId, leader: NodeId, req: SnapshotRequest, x': NodeState, reply: Message)
    requires Calm(s) && Settled(s) && n in s.nodes && leader in s.core.servers && leader != n
    requires SnapshotOk(s.core, leader, req) && req.term == s.nodes[n].currentTerm
    requires req.lastIncludedIndex <= s.nodes[n].snapIndex && x' == Following(s.nodes[n], req.leaderId)
    requires Answers(reply, n, leader, req)
    ensures MoveOk(s, n, x', {reply}, Some(req.lastIncludedIndex))
  {
    NodeFacts(s, n);
    var x := s.nodes[n];
    CommittedWithLeader(s, n);
    assert CanAccept(s.core, n, x'.log, req.lastIncludedIndex);
    AcceptGrows(s.core, n, x'.log, req.lastIncludedIndex);
    AckRecord(s.core, n, x, x', req.lastIncludedIndex);
    AckedOk(s.core, n, x, x', req.lastIncludedIndex);
    ConfirmReplyOk(s.core, n, x'.log, leader, req, reply);
    assert Delivered(n, x, x') == {};
    AckMove(s, n, x', req.lastIncludedIndex, reply);
  }

  /** Where two logs part, or where the first one ends. */
  lemma PartingPoint(log: seq<Entry>, other: seq<Entry>) returns (k: nat)
    requires |log| <= |other|
    ensures k <= |log| && Agree(log, other, k) && (k < |log| ==> log[k] != other[k])
  {
    k := 0;
    while k < |log| && log[k] == other[k]
      invariant k <= |log| && Agree(log, other, k)
    {
      k := k + 1;
    }
  }

  /** Replacing a log by a longer stretch of the leader's is a splice too. */
  lemma ReplacementIsSplice(log: seq<Entry>, leaderLog: seq<Entry>, m: nat)
    requires |log| <= m <= |leaderLog|
    ensures Spliced(log, leaderLog, m, leaderLog[..m])
  {
    if leaderLog[..m] != log {
      var k := PartingPoint(log, leaderLog[..m]);
      assert SplicedAt(log, leaderLog, m, leaderLog[..m], k);
    }
  }

  /** The installed snapshot stands for the leader's first entries, whoever sent its first chunk. */
  lemma InstalledLog(c: Core, x: NodeState, leader: NodeId, req: SnapshotRequest)
    requires Complete(c) && SnapshotOk(c, leader, req) && req.term == x.currentTerm && TransferOk(c, x)
    requires ChunkFits(x.transfer, req)
    ensures var t := ReceiveChunk(x.transfer, req);
            var covered := c.termLog[req.term][..req.lastIncludedIndex];
            && t.Receiving? && t.index == req.lastIncludedIndex && t.term == req.lastIncludedTerm
            && SnapshotLog(covered, t.index, t.term) == covered
  {
    ReceivedOk(c, x, leader, req);
    OfferedIsCommitted(c, leader, req);
    var t := ReceiveChunk(x.transfer, req);
    SnapFactsAgree(c, req.lastIncludedIndex, t.term, req.lastIncludedTerm, x.currentTerm);
  }

  /** x' is x with its log replaced by the first entries of the leader. */
  ghost predicate Replaced(leaderLog: seq<Entry>, x: NodeState, x': NodeState, req: SnapshotRequest) {
    && x'.currentTerm == x.currentTerm && x'.votedFor == x.votedFor && x'.role == Follower
    && x'.matchIndex == x.matchIndex && x'.transfer == Idle
    && req.lastIncludedIndex <= |leaderLog| && x'.log == leaderLog[..req.lastIncludedIndex]
    && x'.snapIndex == req.lastIncludedIndex == x'.commitIndex && x'.snapTerm == req.lastIncludedTerm
    && x'.disk == x.disk.(snapshot := x'.disk.snapshot, snapIndex := x'.snapIndex, snapTerm := x'.snapTerm,
                          entries := x'.disk.entries)
    && x'.out == x.out + [Snapshot(x'.disk.snapshot, x'.snapIndex, x'.snapTerm)]
  }

  lemma InstallReplaces(c: Core, x: NodeState, leader: NodeId, req: SnapshotRequest)
    requires Complete(c) && SnapshotOk(c, leader, req) && req.term == x.currentTerm && TransferOk(c, x)
    requires ChunkFits(x.transfer, req) && x.commitIndex <= req.lastIncludedIndex
    ensures var covered := c.termLog[req.term][..req.lastIncludedIndex];
            && ReceiveChunk(x.transfer, req).Receiving?
            && Replaced(c.termLog[req.term], x,
                        Install(Following(x, req.leaderId), ReceiveChunk(x.transfer, req), covered), req)
  {
    InstalledLog(c, x, leader, req);
  }

  lemma InstallAcceptable(c: Core, n: NodeId, x: NodeState, x': NodeState, leader: NodeId, req: SnapshotRequest)
    requires n in c.peers && c.peers[n] == Peer(x.currentTerm, x.log, x.commitIndex)
    requires SnapshotOk(c, leader, req) && leader != n && req.term == x.currentTerm && |x.log| <= req.lastIncludedIndex
    requires Replaced(c.termLog[req.term], x, x', req)
    ensures CanAccept(c, n, x'.log, req.lastIncludedIndex)
  {
    ReplacementIsSplice(x.log, c.termLog[req.term], req.lastIncludedIndex);
  }

  lemma InstalledOk(c: Core, n: NodeId, x: NodeState, x': NodeState, leader: NodeId, req: SnapshotRequest)
    requires n in c.peers && c.peers[n] == Peer(x.currentTerm, x.log, x.commitIndex) && NodeOk(c, n, x)
    requires SnapshotOk(c, leader, req) && req.term == x.currentTerm && Replaced(c.termLog[req.term], x, x', req)
    requires CanAccept(c, n, x'.log, req.lastIncludedIndex) && Grows(c, Accept(c, n, x'.log, req.lastIncludedIndex))
    ensures Recordable(c, n, x', Some(req.lastIncludedIndex))
    ensures var c1 := Accept(c, n, x'.log, req.lastIncludedIndex);
            && Record(c, n, x', Some(req.lastIncludedIndex)) == RecordCommit(c1, n, x')
            && NodeOk(c1, n, x')
  {
    var m := req.lastIncludedIndex;
    CommittedUpToGrows(c, Accept(c, n, x'.log, m), c.termLog[req.term], x'.log, m, req.term, req.term);
    AckRecord(c, n, x, x', m);
    AckedOk(c, n, x, x', m);
  }

  /** The protocol can record the replacement, and answer and node are in order then. */
  lemma InstallRecords(c: Core, n: NodeId, x: NodeState, x': NodeState, leader: NodeId, req: SnapshotRequest,
                       reply: Message)
    requires Shape(c) && AcksOk(c) && n in c.peers && c.peers[n] == Peer(x.currentTerm, x.log, x.commitIndex)
    requires NodeOk(c, n, x) && n in c.servers && leader in c.servers && leader != n
    requires SnapshotOk(c, leader, req) && req.term == x.currentTerm && |x.log| <= req.lastIncludedIndex
    requires Replaced(c.termLog[req.term], x, x', req) && Answers(reply, n, leader, req)
    ensures Recordable(c, n, x', Some(req.lastIncludedIndex))
    ensures var c1 := Accept(c, n, x'.log, req.lastIncludedIndex);
            && Record(c, n, x', Some(req.lastIncludedIndex)) == RecordCommit(c1, n, x')
            && NodeOk(c1, n, x') && MsgOk(c1, reply)
  {
    InstallAcceptable(c, n, x, x', leader, req);
    AcceptGrows(c, n, x'.log, req.lastIncludedIndex);
    InstalledOk(c, n, x, x', leader, req);
    ConfirmReplyOk(c, n, x'.log, leader, req, reply);
  }

  lemma InstallMove(s: Cluster, n: NodeId, leader: NodeId, req: SnapshotRequest, x': NodeState, reply: Message)
    requires Calm(s) && Settled(s) && n in s.nodes && leader in s.core.servers && leader != n
    requires SnapshotOk(s.core, leader, req) && req.term == s.nodes[n].currentTerm
    requires |s.nodes[n].log| <= req.lastIncludedIndex
    requires Replaced(s.core.termLog[req.term], s.nodes[n], x', req)
    requires Answers(reply, n, leader, req)
    ensures MoveOk(s, n, x', {reply}, Some(req.lastIncludedIndex))
  {
    NodeFacts(s, n);
    InstallRecords(s.core, n, s.nodes[n], x', leader, req, reply);
    SnapshotDeliversNoEntry(n, s.nodes[n], x');
    AckMove(s, n, x', req.lastIncludedIndex, reply);
  }

  lemma SnapshotDeliversNoEntry(n: NodeId, x: NodeState, x': NodeState)
    requires |x'.out| == |x.out| + 1 && x'.out[|x.out|].Snapshot?
    ensures Delivered(n, x, x') == {}
  {
  }

  // ---------------------------------------------------------------- InstallSnapshot as a whole

  /** What handling the chunk amounts to: a new state, an answer, and perhaps an acknowledgement. */
  ghost predicate CallMoveOk(s: Cluster, m: Message)
    requires m.SnapshotCall? && m.dst in s.nodes
  {
    var (x', resp) := HandleInstallSnapshot(s.nodes[m.dst], m.snap, Covered(s, m.snap));
    MoveOk(s, m.dst, x', {SnapshotAnswer(m, s.nodes[m.dst], Covered(s, m.snap))},
           if resp.success && m.snap.done then Some(m.snap.lastIncludedIndex) else None)
  }

  /** The final chunk of a snapshot that covers the node's log. */
  lemma InstalledCallMove(s: Cluster, m: Message)
    requires Calm(s) && Settled(s) && MsgOk(s.core, m) && m.SnapshotCall? && m.snap.term == s.nodes[m.dst].currentTerm
    requires Installs(s.nodes[m.dst], m.snap) && |s.nodes[m.dst].log| <= m.snap.lastIncludedIndex
    ensures CallMoveOk(s, m)
  {
    var x := s.nodes[m.dst];
    InstallCases(x, m.snap, Covered(s, m.snap));
    NodeFacts(s, m.dst);
    InstallReplaces(s.core, x, m.src, m.snap);
    InstallMove(s, m.dst, m.src, m.snap, HandleInstallSnapshot(x, m.snap, Covered(s, m.snap)).0,
                SnapshotAnswer(m, x, Covered(s, m.snap)));
  }

  /** The final chunk of a snapshot the node is past already. */
  lemma PastCallMove(s: Cluster, m: Message)
    requires Calm(s) && Settled(s) && MsgOk(s.core, m) && m.SnapshotCall? && m.snap.term == s.nodes[m.dst].currentTerm
    requires m.snap.lastIncludedIndex <= s.nodes[m.dst].snapIndex && m.snap.done
    ensures CallMoveOk(s, m)
  {
    var x := s.nodes[m.dst];
    InstallCases(x, m.snap, Covered(s, m.snap));
    PastMove(s, m.dst, m.src, m.snap, HandleInstallSnapshot(x, m.snap, Covered(s, m.snap)).0,
             SnapshotAnswer(m, x, Covered(s, m.snap)));
  }

  lemma OtherCallMove(s: Cluster, m: Message)
    requires Calm(s) && MsgOk(s.core, m) && m.SnapshotCall? && m.snap.term <= s.nodes[m.dst].currentTerm
    requires !Installs(s.nodes[m.dst], m.snap)
    requires m.snap.term == s.nodes[m.dst].currentTerm
         ==> !(m.snap.lastIncludedIndex <= s.nodes[m.dst].snapIndex && m.snap.done)
    ensures CallMoveOk(s, m)
  {
    var x := s.nodes[m.dst];
    InstallCases(x, m.snap, Covered(s, m.snap));
    NotYetMove(s, m, HandleInstallSnapshot(x, m.snap, Covered(s, m.snap)).0, SnapshotAnswer(m, x, Covered(s, m.snap)));
  }

  /** A chunk of the node's own term or an earlier one. */
  lemma SnapshotCallMove(s: Cluster, m: Message)
    requires Calm(s) && Settled(s) && MsgOk(s.core, m) && m.SnapshotCall?
    requires m.snap.term <= s.nodes[m.dst].currentTerm
    requires Installs(s.nodes[m.dst], m.snap) ==> |s.nodes[m.dst].log| <= m.snap.lastIncludedIndex
    ensures CallMoveOk(s, m)
  {
    var x := s.nodes[m.dst];
    if Installs(x, m.snap) {
      InstalledCallMove(s, m);
    } else if m.snap.term == x.currentTerm && m.snap.lastIncludedIndex <= x.snapIndex && m.snap.done {
      PastCallMove(s, m);
    } else {
      OtherCallMove(s, m);
    }
  }

  lemma NotYetMove(s: Cluster, m: Message, x': NodeState, reply: Message)
    requires Calm(s) && MsgOk(s.core, m) && m.SnapshotCall? && m.snap.term <= s.nodes[m.dst].currentTerm
    requires var x := s.nodes[m.dst];
             var x1 := Following(x, m.snap.leaderId);
             if m.snap.term < x.currentTerm then x' == x
             else x' == x1 || x' == x1.(transfer := ReceiveChunk(x.transfer, m.snap))
    requires Answers(reply, m.dst, m.src, m.snap) && !(reply.snapResp.success && m.snap.done)
    ensures MoveOk(s, m.dst, x', {reply}, None)
  {
    NodeFacts(s, m.dst);
    var x := s.nodes[m.dst];
    if m.snap.term == x.currentTerm {
      ReceivedOk(s.core, x, m.src, m.snap);
    }
    ChunkStoredMove(s, m, x', reply);
  }
}
