/** The four guarantees of the protocol, in every state of every run of the cluster. */
module RaftSafety {

  import opened Wrappers
  import opened Bytes
  import opened RaftTypes
  import opened RaftSpec
  import opened RaftCore
  import opened RaftCoreProofs
  import opened RaftCluster
  import opened RaftInvariant
  import opened RaftMoves
  import opened RaftElectionSteps
  import opened RaftLeaderSteps
  import opened RaftFollowerSteps
  import opened RaftSnapshotSteps

  // ---------------------------------------------------------------- every step keeps the invariant

  lemma GoodParts(s: Cluster)
    requires Good(s)
    ensures Calm(s) && Settled(s)
  {
    LeadersComplete(s.core);
  }

  function TimeoutPut(s: Cluster, n: NodeId): Cluster
    requires Present(s, n)
  {
    var cfg := Cfg(s, n);
    var x := StartElection(cfg, s.nodes[n]);
    Put(s, n, x,
        if x.role == Leader then {} else set p | p in cfg.peers :: VoteCall(n, p, BuildVoteRequest(cfg, x)),
        None)
  }

  function VoteCalls(cfg: Config, x: NodeState): set<Message> {
    set p | p in cfg.peers :: VoteCall(cfg.id, p, BuildVoteRequest(cfg, x))
  }

  lemma TimeoutCases(s: Cluster, n: NodeId)
    requires Present(s, n)
    ensures var cfg := Cfg(s, n);
            var x1 := Standing(cfg, s.nodes[n]);
            TimeoutPut(s, n) == if 1 >= cfg.Quorum() then Put(s, n, BecomeLeader(cfg, x1), {}, None)
                                else Put(s, n, x1, VoteCalls(cfg, x1), None)
  {
  }

  lemma TimeoutKeeps(s: Cluster, n: NodeId)
    requires Good(s) && Present(s, n)
    ensures Advances(s, TimeoutPut(s, n))
  {
    GoodParts(s);
    TimeoutCases(s, n);
    var cfg := Cfg(s, n);
    var x1 := Standing(cfg, s.nodes[n]);
    if 1 >= cfg.Quorum() {
      NodeFacts(s, n);
      SingleServer(s.core.servers, n);
      AloneMove(s, n);
      MoveKeeps(s, n, BecomeLeader(cfg, x1), {}, None);
    } else {
      StandMove(s, n, VoteCalls(cfg, x1));
      MoveKeeps(s, n, x1, VoteCalls(cfg, x1), None);
    }
  }

  function VoteCallPut(s: Cluster, m: Message): Cluster
    requires m.VoteCall? && Present(s, m.dst)
  {
    Put(s, m.dst, HandleRequestVote(s.nodes[m.dst], m.vote).0, {VoteAnswer(m, s.nodes[m.dst])}, None)
  }

  lemma VoteCallKeepsInTerm(s: Cluster, m: Message)
    requires Good(s) && m in s.net && m.VoteCall? && Present(s, m.dst) && m.vote.term <= s.nodes[m.dst].currentTerm
    ensures Advances(s, VoteCallPut(s, m))
  {
    GoodParts(s);
    assert MsgOk(s.core, m);
    VoteCallMove(s, m);
    MoveKeeps(s, m.dst, HandleRequestVote(s.nodes[m.dst], m.vote).0, {VoteAnswer(m, s.nodes[m.dst])}, None);
  }

  lemma VoteCallKeeps(s: Cluster, m: Message)
    requires Good(s) && m in s.net && m.VoteCall? && Present(s, m.dst)
    ensures Advances(s, VoteCallPut(s, m))
  {
    var n := m.dst;
    var x := s.nodes[n];
    if m.vote.term > x.currentTerm {
      VoteRequestRaises(x, m.vote);
      RaisedGood(s, n, m.vote.term);
      VoteCallKeepsInTerm(Raised(s, n, m.vote.term), m);
      GrowsTransitive(s.core, Raised(s, n, m.vote.term).core, VoteCallPut(Raised(s, n, m.vote.term), m).core);
      RaisedPut(s, n, m.vote.term, HandleRequestVote(x, m.vote).0, {VoteAnswer(m, x)}, None);
    } else {
      VoteCallKeepsInTerm(s, m);
    }
  }

  function AppendAck(x: NodeState, req: AppendRequest): Option<nat> {
    if HandleAppendEntries(x, req).1.success then Some(Reach(req)) else None
  }

  function AppendCallPut(s: Cluster, m: Message): Cluster
    requires m.AppendCall? && Present(s, m.dst)
  {
    var x := s.nodes[m.dst];
    Put(s, m.dst, HandleAppendEntries(x, m.append).0, {AppendAnswer(m, x)}, AppendAck(x, m.append))
  }

  lemma AppendCallKeepsInTerm(s: Cluster, m: Message)
    requires Good(s) && m in s.net && m.AppendCall? && Present(s, m.dst) && m.append.term <= s.nodes[m.dst].currentTerm
    ensures Advances(s, AppendCallPut(s, m))
  {
    GoodParts(s);
    assert MsgOk(s.core, m);
    AppendCallMove(s, m);
    var x := s.nodes[m.dst];
    MoveKeeps(s, m.dst, HandleAppendEntries(x, m.append).0, {AppendAnswer(m, x)}, AppendAck(x, m.append));
  }

  lemma AppendCallRaised(s: Cluster, m: Message)
    requires m.AppendCall? && Present(s, m.dst) && m.append.term > s.nodes[m.dst].currentTerm
    requires var s1 := Raised(s, m.dst, m.append.term);
             && CanBump(s.core, m.dst, m.append.term) && s1.core == Bump(s.core, m.dst, m.append.term)
             && s1.nodes == s.nodes[m.dst := BecomeFollower(s.nodes[m.dst], m.append.term)]
    ensures AppendCallPut(Raised(s, m.dst, m.append.term), m) == AppendCallPut(s, m)
  {
    var x := s.nodes[m.dst];
    AppendRaises(x, m.append);
    RaisedPut(s, m.dst, m.append.term, HandleAppendEntries(x, m.append).0, {AppendAnswer(m, x)},
              AppendAck(x, m.append));
  }

  lemma AppendCallKeeps(s: Cluster, m: Message)
    requires Good(s) && m in s.net && m.AppendCall? && Present(s, m.dst)
    ensures Advances(s, AppendCallPut(s, m))
  {
    if m.append.term > s.nodes[m.dst].currentTerm {
      RaisedGood(s, m.dst, m.append.term);
      var s1 := Raised(s, m.dst, m.append.term);
      AppendCallKeepsInTerm(s1, m);
      GrowsTransitive(s.core, s1.core, AppendCallPut(s1, m).core);
      AppendCallRaised(s, m);
    } else {
      AppendCallKeepsInTerm(s, m);
    }
  }

  function SnapshotAck(x: NodeState, req: SnapshotRequest, covered: seq<Entry>): Option<nat> {
    if HandleInstallSnapshot(x, req, covered).1.success && req.done then Some(req.lastIncludedIndex) else None
  }

  function SnapshotCallPut(s: Cluster, m: Message): Cluster
    requires m.SnapshotCall? && Present(s, m.dst)
  {
    var x := s.nodes[m.dst];
    var covered := Covered(s, m.snap);
    Put(s, m.dst, HandleInstallSnapshot(x, m.snap, covered).0, {SnapshotAnswer(m, x, covered)},
        SnapshotAck(x, m.snap, covered))
  }

  /** The restriction on installing a snapshot: it must not end before the log it replaces. */
  ghost predicate FitToInstall(x: NodeState, req: SnapshotRequest) {
    Installs(x, req) ==> |x.log| <= req.lastIncludedIndex
  }

  lemma SnapshotCallKeepsInTerm(s: Cluster, m: Message)
    requires Good(s) && m in s.net && m.SnapshotCall? && Present(s, m.dst) && m.snap.term <= s.nodes[m.dst].currentTerm
    requires FitToInstall(s.nodes[m.dst], m.snap)
    ensures Advances(s, SnapshotCallPut(s, m))
  {
    GoodParts(s);
    assert MsgOk(s.core, m);
    SnapshotCallMove(s, m);
    var x := s.nodes[m.dst];
    var covered := Covered(s, m.snap);
    MoveKeeps(s, m.dst, HandleInstallSnapshot(x, m.snap, covered).0, {SnapshotAnswer(m, x, covered)},
              SnapshotAck(x, m.snap, covered));
  }

  lemma SnapshotCallRaised(s: Cluster, m: Message)
    requires m.SnapshotCall? && Present(s, m.dst) && m.snap.term > s.nodes[m.dst].currentTerm
    requires var s1 := Raised(s, m.dst, m.snap.term);
             && CanBump(s.core, m.dst, m.snap.term) && s1.core == Bump(s.core, m.dst, m.snap.term)
             && s1.nodes == s.nodes[m.dst := BecomeFollower(s.nodes[m.dst], m.snap.term)]
    ensures SnapshotCallPut(Raised(s, m.dst, m.snap.term), m) == SnapshotCallPut(s, m)
    ensures FitToInstall(s.nodes[m.dst], m.snap) ==> FitToInstall(Raised(s, m.dst, m.snap.term).nodes[m.dst], m.snap)
  {
    var x := s.nodes[m.dst];
    var covered := Covered(s, m.snap);
    InstallRaises(x, m.snap, covered);
    RaisedPut(s, m.dst, m.snap.term, HandleInstallSnapshot(x, m.snap, covered).0, {SnapshotAnswer(m, x, covered)},
              SnapshotAck(x, m.snap, covered));
  }

  lemma SnapshotCallKeeps(s: Cluster, m: Message)
    requires Good(s) && m in s.net && m.SnapshotCall? && Present(s, m.dst)
    requires FitToInstall(s.nodes[m.dst], m.snap)
    ensures Advances(s, SnapshotCallPut(s, m))
  {
    if m.snap.term > s.nodes[m.dst].currentTerm {
      RaisedGood(s, m.dst, m.snap.term);
      SnapshotCallRaised(s, m);
      var s1 := Raised(s, m.dst, m.snap.term);
      SnapshotCallKeepsInTerm(s1, m);
      GrowsTransitive(s.core, s1.core, SnapshotCallPut(s1, m).core);
    } else {
      SnapshotCallKeepsInTerm(s, m);
    }
  }

  lemma ProposeKeeps(s: Cluster, n: NodeId, data: Bytes)
    requires Good(s) && n in s.nodes
    ensures Present(s, n) && Advances(s, Put(s, n, Propose(Cfg(s, n), s.nodes[n], data), {}, None))
  {
    GoodParts(s);
    NodeFacts(s, n);
    var x := s.nodes[n];
    if x.role == Leader {
      ProposeMove(s, n, Entry(|x.log| + 1, x.currentTerm, data));
    } else {
      IdleMove(s, n);
    }
    MoveKeeps(s, n, Propose(Cfg(s, n), x, data), {}, None);
  }

  lemma ReplicateKeeps(s: Cluster, step: Step)
    requires Good(s) && Enabled(s, step) && step.Replicate?
    ensures Advances(s, Apply(s, step))
  {
    GoodParts(s);
    var n, peer := step.n, step.peer;
    ReplicateMove(s, n, peer);
    MoveKeeps(s, n, s.nodes[n], {AppendCall(n, peer, BuildAppend(Cfg(s, n), s.nodes[n], peer))}, None);
  }

  lemma SendChunkKeeps(s: Cluster, step: Step)
    requires Good(s) && Enabled(s, step) && step.SendChunk?
    ensures Advances(s, Apply(s, step))
  {
    GoodParts(s);
    var x := s.nodes[step.n];
    var req := SnapshotRequest(x.currentTerm, step.n, x.snapIndex, x.snapTerm, step.offset, step.data, step.done);
    ChunkMove(s, step.n, step.peer, req);
    MoveKeeps(s, step.n, x, {SnapshotCall(step.n, step.peer, req)}, None);
  }

  lemma QuietStepsKeep(s: Cluster, step: Step)
    requires Good(s) && Enabled(s, step)
    requires step.Replicate? || step.SendChunk? || step.Compact? || step.CrashAndRestart?
    ensures Advances(s, Apply(s, step))
  {
    GoodParts(s);
    match step
    case Compact(n, e, data) =>
      CompactMove(s, n, data, e);
      MoveKeeps(s, n, CompactLog(s.nodes[n], data, e.index, e.term), {}, None);
    case CrashAndRestart(n) =>
      RestartMove(s, n);
      MoveKeeps(s, n, Restart(s.nodes[n].disk, s.nodes[n].log[..s.nodes[n].snapIndex]), {}, None);
    case Replicate(_, _) => ReplicateKeeps(s, step);
    case SendChunk(_, _, _, _, _) => SendChunkKeeps(s, step);
  }

  lemma RepliesKeep(s: Cluster, step: Step)
    requires Good(s) && Enabled(s, step)
    requires step.DeliverVoteReply? || step.DeliverAppendReply? || step.DeliverSnapshotReply?
    ensures Advances(s, Apply(s, step))
  {
    GoodParts(s);
    match step
    case DeliverVoteReply(m) =>
      assert MsgOk(s.core, m);
      VoteReplyMove(s, m);
      MoveKeeps(s, m.dst, HandleVoteResponse(Cfg(s, m.dst), s.nodes[m.dst], m.src, m.vote, m.voteResp), {}, None);
    case DeliverAppendReply(m) =>
      assert MsgOk(s.core, m);
      AppendReplyMove(s, m);
      MoveKeeps(s, m.dst, HandleAppendResponse(Cfg(s, m.dst), s.nodes[m.dst], m.src, m.append, m.appendResp), {}, None);
    case DeliverSnapshotReply(m) =>
      assert MsgOk(s.core, m);
      SnapshotReplyMove(s, m);
      MoveKeeps(s, m.dst, HandleSnapshotResponse(s.nodes[m.dst], m.src, m.snap, m.snapResp), {}, None);
  }

  lemma ApplyVoteCall(s: Cluster, m: Message)
    requires Enabled(s, DeliverVoteCall(m))
    ensures Apply(s, DeliverVoteCall(m)) == VoteCallPut(s, m)
  {
  }

  lemma ApplyAppendCall(s: Cluster, m: Message)
    requires Enabled(s, DeliverAppendCall(m))
    ensures Apply(s, DeliverAppendCall(m)) == AppendCallPut(s, m)
  {
  }

  lemma ApplySnapshotCall(s: Cluster, m: Message)
    requires Enabled(s, DeliverSnapshotCall(m))
    ensures Apply(s, DeliverSnapshotCall(m)) == SnapshotCallPut(s, m) && FitToInstall(s.nodes[m.dst], m.snap)
  {
  }

  lemma CallsKeep(s: Cluster, step: Step)
    requires Good(s) && Enabled(s, step)
    requires step.DeliverVoteCall? || step.DeliverAppendCall? || step.DeliverSnapshotCall?
    ensures Advances(s, Apply(s, step))
  {
    match step
    case DeliverVoteCall(m) =>
      ApplyVoteCall(s, m);
      VoteCallKeeps(s, m);
    case DeliverAppendCall(m) =>
      ApplyAppendCall(s, m);
      AppendCallKeeps(s, m);
    case DeliverSnapshotCall(m) =>
      ApplySnapshotCall(s, m);
      SnapshotCallKeeps(s, m);
  }

  lemma ApplyLocal(s: Cluster, step: Step)
    requires Enabled(s, step)
    ensures step.Timeout? ==> Apply(s, step) == TimeoutPut(s, step.n)
    ensures step.ClientPropose? ==>
              Apply(s, step) == Put(s, step.n, Propose(Cfg(s, step.n), s.nodes[step.n], step.data), {}, None)
  {
  }

  lemma LocalStepsKeep(s: Cluster, step: Step)
    requires Good(s) && Enabled(s, step) && (step.Timeout? || step.ClientPropose?)
    ensures Advances(s, Apply(s, step))
  {
    ApplyLocal(s, step);
    match step
    case Timeout(n) => TimeoutKeeps(s, n);
    case ClientPropose(n, data) => ProposeKeeps(s, n, data);
  }

  /** Every step of the cluster keeps the invariant. */
  lemma StepKeeps(s: Cluster, step: Step)
    requires Good(s) && Enabled(s, step)
    ensures Advances(s, Apply(s, step))
  {
    if step.Timeout? || step.ClientPropose? {
      LocalStepsKeep(s, step);
    } else if step.DeliverVoteCall? || step.DeliverAppendCall? || step.DeliverSnapshotCall? {
      CallsKeep(s, step);
    } else if step.DeliverVoteReply? || step.DeliverAppendReply? || step.DeliverSnapshotReply? {
      RepliesKeep(s, step);
    } else {
      QuietStepsKeep(s, step);
    }
  }

  lemma InitGood(s: Cluster)
    requires Init(s)
    ensures Good(s)
  {
    forall n | n in s.nodes ensures NodeOk(s.core, n, s.nodes[n]) {
      assert s.nodes[n] == Restart(BLANK_DISK, []);
      assert SnapshotLog([], 0, 0) == [];
    }
  }

  lemma NextKeeps(s: Cluster, s': Cluster)
    requires Good(s) && Next(s, s')
    ensures Good(s') && Grows(s.core, s'.core)
  {
    var step :| Enabled(s, step) && s' == Apply(s, step);
    StepKeeps(s, step);
  }

  lemma RunSteps(run: seq<Cluster>, i: nat, s: Cluster, s': Cluster)
    requires IsRun(run) && i + 1 < |run| && s == run[i] && s' == run[i + 1]
    ensures Next(s, s')
  {
    assert StepAt(run, i);
  }

  lemma RunStarts(run: seq<Cluster>, s: Cluster)
    requires IsRun(run) && s == run[0]
    ensures Good(s)
  {
    InitGood(s);
  }

  /** The invariant holds in every state of every run. */
  lemma {:induction false} RunIsGood(run: seq<Cluster>, i: nat)
    requires IsRun(run) && i < |run|
    ensures Good(run[i])
  {
    if i == 0 {
      RunStarts(run, run[0]);
    } else {
      RunIsGood(run, i - 1);
      RunSteps(run, i - 1, run[i - 1], run[i]);
      NextKeeps(run[i - 1], run[i]);
    }
  }
}
