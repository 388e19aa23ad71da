/** Steps of a leader: proposing, replicating, counting acknowledgements, committing. Also compaction and restart. */
module RaftLeaderSteps {

  import opened Wrappers
  import opened Bytes
  import opened RaftTypes
  import opened RaftSpec
  import opened RaftCore
  import opened RaftCoreProofs
  import opened RaftCluster
  import opened RaftInvariant
  import opened RaftMoves
  import opened RaftElectionSteps

  // ---------------------------------------------------------------- committing

  /** The leader counts right: an index it may commit is confirmed by a quorum. */
  lemma LeaderCommits(c: Core, n: NodeId, cfg: Config, x: NodeState, k: nat)
    requires n in c.servers && cfg == Config(n, c.servers - {n})
    requires x.role == Leader && LeaderOk(c, n, x) && x.matchIndex.Keys <= cfg.peers
    requires 0 < k <= |x.log| && Replicated(cfg, x, k)
    ensures Committed(c, x.currentTerm, k)
  {
    var counted := Replicas(cfg, x, k) + {n};
    assert |counted| == |Replicas(cfg, x, k)| + 1;
    assert counted <= Ackers(c, x.currentTerm, k);
    SubsetSize(counted, Ackers(c, x.currentTerm, k));
    assert |c.servers| == |cfg.peers| + 1;
  }

  lemma CommittableReplicated(cfg: Config, x: NodeState, i: nat)
    requires i <= |x.log| && Committable(cfg, x, i) != x.commitIndex
    ensures var k := Committable(cfg, x, i); x.commitIndex < k <= i && Replicated(cfg, x, k)
  {
  }

  /** What a node hands out is exactly the stretch of its log between the old and the new commit index. */
  lemma DeliveredAre(n: NodeId, x: NodeState, x': NodeState, es: seq<Entry>)
    requires x'.out == x.out + Commands(es)
    ensures Delivered(n, x, x') == set e | e in es :: Delivery(n, e)
  {
    forall e | e in es ensures Delivery(n, e) in Delivered(n, x, x') {
      var i :| 0 <= i < |es| && es[i] == e;
      assert x'.out[|x.out| + i] == Command(e);
    }
  }

  lemma CommittedCertified(c: Core, log: seq<Entry>, t: nat, lo: nat, k: nat)
    requires TermLogsOk(c.termLog) && lo < k && CommittedUpTo(c, log, k, t)
    ensures forall e :: e in log[lo..k] ==> Certified(c, e)
  {
    var t0: nat, i: nat :| t0 <= t && CommittedBy(c, log, k, t0, i);
    forall e | e in log[lo..k] ensures Certified(c, e) {
      var j :| lo <= j < k && log[j] == e;
      assert Bounded(c.termLog[t0], t0);
      assert c.termLog[t0][j] == e;
      assert CertifiedBy(c, e, t0, i);
    }
  }

  lemma AdvanceOk(c: Core, n: NodeId, cfg: Config, x: NodeState)
    requires TermLogsOk(c.termLog) && n in c.servers && n in c.peers && cfg == Config(n, c.servers - {n})
    requires c.peers[n] == Peer(x.currentTerm, x.log, x.commitIndex) && x.role == Leader && NodeOk(c, n, x)
    ensures var x' := MaybeAdvanceCommit(cfg, x);
            && x'.log == x.log && x.commitIndex <= x'.commitIndex <= |x.log|
            && x'.out == x.out + Commands(x.log[x.commitIndex..x'.commitIndex])
            && x' == x.(commitIndex := x'.commitIndex, out := x'.out)
            && CommittedUpToOrSame(c, x, x'.commitIndex)
            && NodeOk(c, n, x')
  {
    var k := Committable(cfg, x, |x.log|);
    var x' := MaybeAdvanceCommit(cfg, x);
    if k != x.commitIndex {
      CommittableReplicated(cfg, x, |x.log|);
      LeaderCommits(c, n, cfg, x, k);
      assert CommittedBy(c, x.log, k, x.currentTerm, k);
      CommittedCertified(c, x.log, x.currentTerm, x.commitIndex, k);
    }
    assert x.out + Commands([]) == x.out;
  }

  ghost predicate CommittedUpToOrSame(c: Core, x: NodeState, k: nat)
    requires x.commitIndex <= k <= |x.log|
  {
    && (k != x.commitIndex ==> CommittedUpTo(c, x.log, k, x.currentTerm))
    && (forall e :: e in x.log[x.commitIndex..k] ==> Certified(c, e))
  }

  // ---------------------------------------------------------------- moves of the commit index

  lemma CommitRecord(c: Core, n: NodeId, x: NodeState, x': NodeState)
    requires n in c.peers && c.peers[n] == Peer(x.currentTerm, x.log, x.commitIndex)
    requires VoterOk(c, n, x) && LeaderOk(c, n, x) && Quiet(x, x'.(commitIndex := x.commitIndex))
    requires x'.commitIndex != x.commitIndex ==> CanCommit(c, n, x'.commitIndex)
    ensures Recordable(c, n, x', None) && Record(c, n, x', None) == RecordCommit(c, n, x')
  {
    assert Voted(c, n, x') == c;
    assert Installed(c, n, x') == c;
  }

  lemma RecordCommitGrows(c: Core, n: NodeId, x: NodeState)
    requires n in c.peers
    ensures Grows(c, RecordCommit(c, n, x))
  {
  }

  /** A node's order does not depend on how far anyone has committed. */
  lemma NodeOkAcrossCommit(c: Core, n: NodeId, x: NodeState, x': NodeState)
    requires n in c.peers && NodeOk(c, n, x')
    ensures NodeOk(RecordCommit(c, n, x), n, x')
  {
    RecordCommitGrows(c, n, x);
    if x'.transfer.Receiving? {
      SnapFactCarries(c, RecordCommit(c, n, x), x'.transfer.index, x'.transfer.term, x'.currentTerm, x'.currentTerm);
    }
  }

  lemma CommitMove(s: Cluster, n: NodeId, x': NodeState)
    requires Calm(s) && n in s.nodes && Quiet(s.nodes[n], x'.(commitIndex := s.nodes[n].commitIndex))
    requires NodeOk(s.core, n, x') && x'.role != Candidate
    requires x'.commitIndex != s.nodes[n].commitIndex ==> CanCommit(s.core, n, x'.commitIndex)
    requires forall d :: d in Delivered(n, s.nodes[n], x') ==> Certified(s.core, d.entry)
    ensures MoveOk(s, n, x', {}, None)
  {
    NodeFacts(s, n);
    CommitRecord(s.core, n, s.nodes[n], x');
    RecordCommitGrows(s.core, n, x');
    NodeOkAcrossCommit(s.core, n, x', x');
    forall d | d in Delivered(n, s.nodes[n], x') ensures Certified(RecordCommit(s.core, n, x'), d.entry) {
      CertifiedCarries(s.core, RecordCommit(s.core, n, x'), d.entry);
    }
  }

  /** After a change that touches only its bookkeeping, a leader sees whether more can be committed. */
  lemma CommittingMove(s: Cluster, n: NodeId, x1: NodeState)
    requires Calm(s) && TermLogsOk(s.core.termLog) && n in s.nodes
    requires Quiet(s.nodes[n], x1) && x1.out == s.nodes[n].out && x1.role == Leader && NodeOk(s.core, n, x1)
    ensures MoveOk(s, n, MaybeAdvanceCommit(Cfg(s, n), x1), {}, None)
  {
    NodeFacts(s, n);
    var x' := MaybeAdvanceCommit(Cfg(s, n), x1);
    AdvanceOk(s.core, n, Cfg(s, n), x1);
    DeliveredAre(n, s.nodes[n], x', x1.log[x1.commitIndex..x'.commitIndex]);
    CommitMove(s, n, x');
  }

  // ---------------------------------------------------------------- responses

  function Matched(x: NodeState, peer: NodeId, m: nat): NodeState {
    if m > At(x.matchIndex, peer)
    then x.(matchIndex := x.matchIndex[peer := m], nextIndex := x.nextIndex[peer := m + 1])
    else x
  }

  lemma MatchedOk(c: Core, n: NodeId, x: NodeState, peer: NodeId, m: nat)
    requires NodeOk(c, n, x) && x.role == Leader && peer in c.servers - {n} && m <= |x.log|
    requires Slot(peer, x.currentTerm) in c.acked && m <= c.acked[Slot(peer, x.currentTerm)]
    ensures NodeOk(c, n, Matched(x, peer, m))
  {
  }

  lemma MatchedQuiet(x: NodeState, peer: NodeId, m: nat)
    ensures var x' := Matched(x, peer, m); Quiet(x, x') && x'.out == x.out && x'.role == x.role
  {
  }

  lemma BacktrackBounds(x: NodeState, resp: AppendResponse)
    requires 1 <= resp.conflictIndex <= |x.log| + 1 && x.snapIndex <= |x.log|
    ensures 1 <= Backtrack(x, resp) <= |x.log| + 1
  {
  }

  lemma BacktrackedOk(c: Core, n: NodeId, x: NodeState, peer: NodeId, next: nat)
    requires NodeOk(c, n, x) && 1 <= next <= |x.log| + 1
    ensures NodeOk(c, n, x.(nextIndex := x.nextIndex[peer := next]))
  {
  }

  lemma AppendResponseCases(cfg: Config, x: NodeState, peer: NodeId, req: AppendRequest, resp: AppendResponse)
    ensures HandleAppendResponse(cfg, x, peer, req, resp) ==
            if resp.term > x.currentTerm then BecomeFollower(x, resp.term)
            else if x.role != Leader || x.currentTerm != req.term then x
            else if resp.success then MaybeAdvanceCommit(cfg, Matched(x, peer, Reach(req)))
            else x.(nextIndex := x.nextIndex[peer := Backtrack(x, resp)])
  {
  }

  lemma AckedMove(s: Cluster, n: NodeId, peer: NodeId, req: AppendRequest)
    requires Calm(s) && TermLogsOk(s.core.termLog) && n in s.nodes && peer in s.core.servers - {n}
    requires s.nodes[n].role == Leader && s.nodes[n].currentTerm == req.term && AppendOk(s.core, n, req)
    requires var sl := Slot(peer, req.term); sl in s.core.acked && Reach(req) <= s.core.acked[sl]
    ensures MoveOk(s, n, MaybeAdvanceCommit(Cfg(s, n), Matched(s.nodes[n], peer, Reach(req))), {}, None)
  {
    NodeFacts(s, n);
    MatchedQuiet(s.nodes[n], peer, Reach(req));
    MatchedOk(s.core, n, s.nodes[n], peer, Reach(req));
    CommittingMove(s, n, Matched(s.nodes[n], peer, Reach(req)));
  }

  lemma RejectedMove(s: Cluster, n: NodeId, peer: NodeId, req: AppendRequest, resp: AppendResponse)
    requires Calm(s) && n in s.nodes && s.nodes[n].role == Leader && s.nodes[n].currentTerm == req.term
    requires AppendOk(s.core, n, req) && 1 <= resp.conflictIndex <= req.prevLogIndex
    ensures var x := s.nodes[n]; MoveOk(s, n, x.(nextIndex := x.nextIndex[peer := Backtrack(x, resp)]), {}, None)
  {
    NodeFacts(s, n);
    var x := s.nodes[n];
    BacktrackBounds(x, resp);
    BacktrackedOk(s.core, n, x, peer, Backtrack(x, resp));
    QuietMove(s, n, x.(nextIndex := x.nextIndex[peer := Backtrack(x, resp)]), {});
  }

  lemma AppendReplyFacts(c: Core, m: Message)
    requires MsgOk(c, m) && m.AppendReply?
    ensures AppendOk(c, m.dst, m.append) && m.src in c.servers - {m.dst}
    ensures m.appendResp.success ==>
              var sl := Slot(m.src, m.append.term); sl in c.acked && Reach(m.append) <= c.acked[sl]
    ensures !m.appendResp.success && m.appendResp.term <= m.append.term ==>
              1 <= m.appendResp.conflictIndex <= m.append.prevLogIndex
  {
  }

  lemma AppendReplyMove(s: Cluster, m: Message)
    requires Calm(s) && TermLogsOk(s.core.termLog) && MsgOk(s.core, m) && m.AppendReply?
    ensures var x' := HandleAppendResponse(Cfg(s, m.dst), s.nodes[m.dst], m.src, m.append, m.appendResp);
            MoveOk(s, m.dst, x', {}, None)
  {
    var n := m.dst;
    var x := s.nodes[n];
    AppendResponseCases(Cfg(s, n), x, m.src, m.append, m.appendResp);
    if m.appendResp.term > x.currentTerm {
      StepDownSilently(s, n, m.appendResp.term);
    } else if x.role != Leader || x.currentTerm != m.append.term {
      IdleMove(s, n);
    } else {
      AnsweredMove(s, m);
    }
  }

  lemma AnsweredMove(s: Cluster, m: Message)
    requires Calm(s) && TermLogsOk(s.core.termLog) && MsgOk(s.core, m) && m.AppendReply?
    requires var x := s.nodes[m.dst];
             x.role == Leader && x.currentTerm == m.append.term && m.appendResp.term <= x.currentTerm
    ensures var x' := HandleAppendResponse(Cfg(s, m.dst), s.nodes[m.dst], m.src, m.append, m.appendResp);
            MoveOk(s, m.dst, x', {}, None)
  {
    var n := m.dst;
    AppendResponseCases(Cfg(s, n), s.nodes[n], m.src, m.append, m.appendResp);
    AppendReplyFacts(s.core, m);
    if m.appendResp.success {
      AckedMove(s, n, m.src, m.append);
    } else {
      RejectedMove(s, n, m.src, m.append, m.appendResp);
    }
  }

  lemma SnapshotResponseCases(x: NodeState, peer: NodeId, req: SnapshotRequest, resp: SnapshotResponse)
    ensures HandleSnapshotResponse(x, peer, req, resp) ==
            if resp.term > x.currentTerm then BecomeFollower(x, resp.term)
            else if x.role != Leader || x.currentTerm != req.term || !resp.success || !req.done then x
            else Matched(x, peer, req.lastIncludedIndex)
  {
  }

  lemma SnapshotReplyFacts(c: Core, m: Message)
    requires MsgOk(c, m) && m.SnapshotReply? && m.snapResp.success && m.snap.done
    ensures SnapshotOk(c, m.dst, m.snap) && m.src in c.servers - {m.dst}
    ensures var sl := Slot(m.src, m.snap.term); sl in c.acked && m.snap.lastIncludedIndex <= c.acked[sl]
  {
  }

  lemma SnapshotReplyMove(s: Cluster, m: Message)
    requires Calm(s) && MsgOk(s.core, m) && m.SnapshotReply?
    ensures MoveOk(s, m.dst, HandleSnapshotResponse(s.nodes[m.dst], m.src, m.snap, m.snapResp), {}, None)
  {
    var n := m.dst;
    var x := s.nodes[n];
    SnapshotResponseCases(x, m.src, m.snap, m.snapResp);
    if m.snapResp.term > x.currentTerm {
      StepDownSilently(s, n, m.snapResp.term);
    } else if x.role != Leader || x.currentTerm != m.snap.term || !m.snapResp.success || !m.snap.done {
      IdleMove(s, n);
    } else {
      SnapshotReplyFacts(s.core, m);
      SnapshotAckedMove(s, n, m.src, m.snap);
    }
  }

  lemma SnapshotAckedMove(s: Cluster, n: NodeId, peer: NodeId, req: SnapshotRequest)
    requires Calm(s) && n in s.nodes && peer in s.core.servers - {n}
    requires s.nodes[n].role == Leader && s.nodes[n].currentTerm == req.term && SnapshotOk(s.core, n, req)
    requires var sl := Slot(peer, req.term); sl in s.core.acked && req.lastIncludedIndex <= s.core.acked[sl]
    ensures MoveOk(s, n, Matched(s.nodes[n], peer, req.lastIncludedIndex), {}, None)
  {
    NodeFacts(s, n);
    MatchedQuiet(s.nodes[n], peer, req.lastIncludedIndex);
    MatchedOk(s.core, n, s.nodes[n], peer, req.lastIncludedIndex);
    QuietMove(s, n, Matched(s.nodes[n], peer, req.lastIncludedIndex), {});
  }

  // ---------------------------------------------------------------- requests

  lemma BuiltAppendOk(c: Core, n: NodeId, cfg: Config, x: NodeState, peer: NodeId)
    requires cfg.id == n && peer in c.servers - {n} && x.role == Leader && NodeOk(c, n, x)
    requires At(x.nextIndex, peer) > x.snapIndex && CommittedUpTo(c, x.log, x.commitIndex, x.currentTerm)
    ensures AppendOk(c, n, BuildAppend(cfg, x, peer))
    ensures var req := BuildAppend(cfg, x, peer); Reach(req) == |x.log|
  {
  }

  lemma ReplicateMove(s: Cluster, n: NodeId, peer: NodeId)
    requires Calm(s) && CommitsOk(s.core) && n in s.nodes && s.nodes[n].role == Leader && peer in Cfg(s, n).peers
    requires At(s.nodes[n].nextIndex, peer) > s.nodes[n].snapIndex
    ensures MoveOk(s, n, s.nodes[n], {AppendCall(n, peer, BuildAppend(Cfg(s, n), s.nodes[n], peer))}, None)
  {
    NodeFacts(s, n);
    BuiltAppendOk(s.core, n, Cfg(s, n), s.nodes[n], peer);
    SentOne(s.core, n, s.nodes[n], AppendCall(n, peer, BuildAppend(Cfg(s, n), s.nodes[n], peer)));
    QuietMove(s, n, s.nodes[n], {AppendCall(n, peer, BuildAppend(Cfg(s, n), s.nodes[n], peer))});
  }

  lemma ChunkOk(c: Core, n: NodeId, x: NodeState, req: SnapshotRequest)
    requires x.role == Leader && NodeOk(c, n, x) && CommittedUpTo(c, x.log, x.commitIndex, x.currentTerm)
    requires 0 < req.lastIncludedIndex == x.snapIndex && req.lastIncludedTerm == x.snapTerm && req.term == x.currentTerm
    ensures SnapshotOk(c, n, req)
  {
    CommittedUpToLess(c, x.log, x.commitIndex, x.snapIndex, x.currentTerm);
  }

  lemma ChunkMove(s: Cluster, n: NodeId, peer: NodeId, req: SnapshotRequest)
    requires Calm(s) && CommitsOk(s.core) && n in s.nodes && s.nodes[n].role == Leader && peer in Cfg(s, n).peers
    requires s.nodes[n].snapIndex > 0 && req.term == s.nodes[n].currentTerm
    requires req.lastIncludedIndex == s.nodes[n].snapIndex && req.lastIncludedTerm == s.nodes[n].snapTerm
    ensures MoveOk(s, n, s.nodes[n], {SnapshotCall(n, peer, req)}, None)
  {
    NodeFacts(s, n);
    ChunkOk(s.core, n, s.nodes[n], req);
    SentOne(s.core, n, s.nodes[n], SnapshotCall(n, peer, req));
    QuietMove(s, n, s.nodes[n], {SnapshotCall(n, peer, req)});
  }

  // ---------------------------------------------------------------- proposing

  function Appended(x: NodeState, e: Entry): NodeState {
    x.(log := x.log + [e], disk := x.disk.(entries := x.disk.entries + [e]))
  }

  lemma AppendedOk(c: Core, n: NodeId, x: NodeState, e: Entry)
    requires n in c.peers && c.peers[n] == Peer(x.currentTerm, x.log, x.commitIndex)
    requires x.role == Leader && NodeOk(c, n, x) && CanLeaderAppend(c, n, e) && Grows(c, LeaderAppend(c, n, e))
    ensures NodeOk(LeaderAppend(c, n, e), n, Appended(x, e))
  {
    if x.transfer.Receiving? {
      SnapFactCarries(c, LeaderAppend(c, n, e), x.transfer.index, x.transfer.term, x.currentTerm, x.currentTerm);
    }
  }

  lemma ProposeRecord(c: Core, n: NodeId, x: NodeState, e: Entry, x': NodeState)
    requires n in c.peers && c.peers[n] == Peer(x.currentTerm, x.log, x.commitIndex)
    requires VoterOk(c, n, x) && LeaderOk(c, n, x) && x.role == Leader && CanLeaderAppend(c, n, e)
    requires x'.currentTerm == x.currentTerm && x'.votedFor == x.votedFor && x'.role == Leader && x'.log == x.log + [e]
    requires x'.commitIndex != x.commitIndex ==> CanCommit(LeaderAppend(c, n, e), n, x'.commitIndex)
    ensures Recordable(c, n, x', None) && Record(c, n, x', None) == RecordCommit(LeaderAppend(c, n, e), n, x')
  {
    assert Voted(c, n, x') == c;
    assert Installed(c, n, x') == c;
    assert x'.log[|x'.log| - 1] == e && x'.log[..|x'.log| - 1] == x.log;
    assert RecordLog(c, n, x', None) == LeaderAppend(c, n, e);
  }

  lemma ProposeMove(s: Cluster, n: NodeId, e: Entry)
    requires Calm(s) && LogsOk(s.core) && n in s.nodes && s.nodes[n].role == Leader
    requires e.index == |s.nodes[n].log| + 1 && e.term == s.nodes[n].currentTerm
    ensures MoveOk(s, n, MaybeAdvanceCommit(Cfg(s, n), Appended(s.nodes[n], e)), {}, None)
  {
    NodeFacts(s, n);
    var x := s.nodes[n];
    var c1 := LeaderAppend(s.core, n, e);
    LeaderAppendGrows(s.core, n, e);
    LeaderAppendKeepsLogs(s.core, n, e);
    AppendedOk(s.core, n, x, e);
    AdvanceOk(c1, n, Cfg(s, n), Appended(x, e));
    var x' := MaybeAdvanceCommit(Cfg(s, n), Appended(x, e));
    ProposeRecord(s.core, n, x, e, x');
    NodeOkAcrossCommit(c1, n, x', x');
    DeliveredAre(n, x, x', x'.log[x.commitIndex..x'.commitIndex]);
    RecordCommitGrows(c1, n, x');
    forall d | d in Delivered(n, x, x') ensures Certified(RecordCommit(c1, n, x'), d.entry) {
      CertifiedCarries(c1, RecordCommit(c1, n, x'), d.entry);
    }
  }

  // ---------------------------------------------------------------- compaction and restart

  /** The entry a node was handed is the one its log still has at that index. */
  lemma HandedEntryIsInLog(c: Core, log: seq<Entry>, k: nat, t: nat, e: Entry)
    requires Complete(c) && CommittedUpTo(c, log, k, t) && Certified(c, e) && e.index <= k
    ensures 0 < e.index <= |log| && log[e.index - 1] == e
  {
    var t0: nat, i: nat :| t0 <= t && CommittedBy(c, log, k, t0, i);
    var u: nat, j: nat :| CertifiedBy(c, e, u, j);
    CommittedAgree(c, t0, i, u, j, e.index);
  }

  lemma CompactedOk(c: Core, n: NodeId, x: NodeState, data: Bytes, e: Entry)
    requires e.index <= x.commitIndex ==> 0 < e.index <= |x.log| && x.log[e.index - 1] == e
    requires NodeOk(c, n, x)
    ensures var x' := CompactLog(x, data, e.index, e.term);
            NodeOk(c, n, x') && Quiet(x, x') && x'.out == x.out && x'.role == x.role
  {
  }

  lemma CompactMove(s: Cluster, n: NodeId, data: Bytes, e: Entry)
    requires Calm(s) && Complete(s.core) && CommitsOk(s.core) && n in s.nodes && Certified(s.core, e)
    ensures MoveOk(s, n, CompactLog(s.nodes[n], data, e.index, e.term), {}, None)
  {
    NodeFacts(s, n);
    var x := s.nodes[n];
    if e.index <= x.commitIndex {
      assert CommittedUpTo(s.core, x.log, x.commitIndex, x.currentTerm);
      HandedEntryIsInLog(s.core, x.log, x.commitIndex, x.currentTerm, e);
    }
    CompactedOk(s.core, n, x, data, e);
    QuietMove(s, n, CompactLog(x, data, e.index, e.term), {});
  }

  /** What was on disk brings the node back with the term, the vote and the log it had. */
  lemma RestartRestores(c: Core, n: NodeId, x: NodeState)
    requires NodeOk(c, n, x) && DiskInStep(x)
    ensures var x' := Restart(x.disk, x.log[..x.snapIndex]);
            && x'.currentTerm == x.currentTerm && x'.votedFor == x.votedFor && x'.log == x.log
            && x'.commitIndex == x.snapIndex && x'.role == Follower && x'.out == []
            && NodeOk(c, n, x')
  {
    assert SnapshotLog(x.log[..x.snapIndex], x.snapIndex, x.snapTerm) == x.log[..x.snapIndex];
    assert x.log[..x.snapIndex] + x.log[x.snapIndex..] == x.log;
  }

  lemma RestartMove(s: Cluster, n: NodeId)
    requires Calm(s) && CommitsOk(s.core) && n in s.nodes && DiskInStep(s.nodes[n])
    ensures MoveOk(s, n, Restart(s.nodes[n].disk, s.nodes[n].log[..s.nodes[n].snapIndex]), {}, None)
  {
    NodeFacts(s, n);
    var x := s.nodes[n];
    var x' := Restart(x.disk, x.log[..x.snapIndex]);
    RestartRestores(s.core, n, x);
    assert CommittedUpTo(s.core, x.log, x.commitIndex, x.currentTerm);
    CommittedUpToLess(s.core, x.log, x.commitIndex, x.snapIndex, x.currentTerm);
    assert Delivered(n, x, x') == {};
    CommitMove(s, n, x');
  }
}
