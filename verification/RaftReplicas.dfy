/**
 The stream of every node of every run is gapless and true to the node's log, so an application that takes
 it in is at all times the state after the committed entries, the same on every node.
 */
module RaftReplicas {

  import opened Bytes
  import opened RaftTypes
  import opened RaftSpec
  import opened RaftCore
  import opened RaftCoreProofs
  import opened RaftCluster
  import opened RaftInvariant
  import opened RaftMoves
  import opened RaftElectionSteps
  import opened RaftLeaderSteps
  import opened RaftSafety
  import opened RaftTheorems
  import opened RaftStream

  /** Snapshots are taken of the applied state, and chunks are cut from the stored snapshot. */
  ghost predicate Faithful(enc: Encoder, s: Cluster, step: Step)
    requires Enabled(s, step)
  {
    match step
    case Compact(n, e, data) => e.index <= |s.nodes[n].log| ==> data == enc(s.nodes[n].log[..e.index])
    case SendChunk(n, _, offset, data, done) => ChunkOf(s.nodes[n].disk.snapshot, offset, data, done)
    case _ => true
  }

  ghost predicate FaithfulNext(enc: Encoder, s: Cluster, s': Cluster) {
    exists step :: Enabled(s, step) && Faithful(enc, s, step) && s' == Apply(s, step)
  }

  ghost predicate FaithfulAt(enc: Encoder, run: seq<Cluster>, i: nat) {
    i + 1 < |run| && FaithfulNext(enc, run[i], run[i + 1])
  }

  ghost predicate IsFaithfulRun(enc: Encoder, run: seq<Cluster>) {
    IsRun(run) && forall i: nat :: i + 1 < |run| ==> FaithfulAt(enc, run, i)
  }

  ghost predicate NodeStreams(enc: Encoder, c: Core, x: NodeState) {
    StreamOk(enc, x) && BufferTrue(c, enc, x.transfer)
  }

  ghost predicate Streaming(enc: Encoder, s: Cluster) {
    && (forall n :: n in s.nodes ==> NodeStreams(enc, s.core, s.nodes[n]))
    && (forall m :: m in s.net && m.SnapshotCall? ==> ChunkTrue(s.core, enc, m.snap))
  }

  // ---------------------------------------------------------------- one node's move

  /** A node's log has its entries in place, and what it knew to be committed it keeps. */
  lemma CommittedStays(s: Cluster, s': Cluster, n: NodeId)
    requires Good(s) && Advances(s, s') && n in s.nodes
    ensures n in s'.nodes && Indexed(s'.nodes[n].log) && DiskOk(s'.nodes[n])
    ensures s.nodes[n].commitIndex <= s'.nodes[n].commitIndex ==>
              Agree(s'.nodes[n].log, s.nodes[n].log, s.nodes[n].commitIndex)
  {
    NodeFacts(s, n);
    NodeFacts(s', n);
    LogsIndexed(s'.core, n);
    LeadersComplete(s'.core);
    CommittedStaysIn(s.core, s'.core, n);
  }

  lemma LogsIndexed(c: Core, n: NodeId)
    requires LogsOk(c) && n in c.peers
    ensures Indexed(c.peers[n].log)
  {
    assert Bounded(c.peers[n].log, c.peers[n].term);
  }

  lemma CommittedStaysIn(c: Core, c': Core, n: NodeId)
    requires CommitsOk(c) && CommitsOk(c') && Complete(c') && Grows(c, c') && n in c.peers
    requires c.peers[n].commit <= |c.peers[n].log|
    ensures c.peers[n].commit <= c'.peers[n].commit ==> Agree(c'.peers[n].log, c.peers[n].log, c.peers[n].commit)
  {
    var p, p' := c.peers[n], c'.peers[n];
    assert CommittedUpTo(c, p.log, p.commit, p.term) && CommittedUpTo(c', p'.log, p'.commit, p'.term);
    CommittedUpToGrows(c, c', p.log, p.log, p.commit, p.term, p.term);
    if p.commit <= p'.commit {
      CommittedPrefixesAgree(c', p.log, p.commit, p.term, p'.log, p'.commit, p'.term);
    }
  }

  lemma AdvancingNode(enc: Encoder, s: Cluster, s': Cluster, n: NodeId)
    requires Good(s) && Advances(s, s') && n in s.nodes && NodeStreams(enc, s.core, s.nodes[n])
    requires n in s'.nodes && Advanced(s.nodes[n], s'.nodes[n]) && s'.nodes[n].transfer == s.nodes[n].transfer
    ensures NodeStreams(enc, s'.core, s'.nodes[n])
  {
    CommittedStays(s, s', n);
    AdvancedStreams(enc, s.nodes[n], s'.nodes[n]);
    BufferTrueCarries(s.core, s'.core, enc, s.nodes[n].transfer);
  }

  // ---------------------------------------------------------------- what the handlers do

  ghost predicate Flows(x: NodeState, x': NodeState) { Advanced(x, x') && x'.transfer == x.transfer }

  lemma AdvanceFlows(x: NodeState, x1: NodeState, k: nat)
    requires x1 == x.(log := x1.log, disk := x.disk.(entries := x1.disk.entries)) && x.commitIndex <= k <= |x1.log|
    ensures Flows(x, AdvanceCommitTo(x1, k))
  {
    assert x.out + Commands([]) == x.out;
  }

  lemma AbsorbFlows(x: NodeState, req: AppendRequest)
    requires var x' := AbsorbEntries(x, req); x.commitIndex <= x'.commitIndex <= |x'.log|
    ensures Flows(x, AbsorbEntries(x, req))
  {
    var x1 := TakeEntries(x, req);
    if req.leaderCommit > x.commitIndex {
      AdvanceFlows(x, x1, Min(req.leaderCommit, |x1.log|));
    } else {
      assert x.out + Commands([]) == x.out;
    }
  }

  lemma AppendFlows(x: NodeState, req: AppendRequest)
    requires x.commitIndex <= |x.log|
    requires var (x', resp) := HandleAppendEntries(x, req);
             resp.success ==> x.commitIndex <= x'.commitIndex <= |x'.log|
    ensures Flows(x, HandleAppendEntries(x, req).0)
  {
    assert x.out + Commands([]) == x.out;
    var x1 := HearLeader(x, req.term, req.leaderId);
    if req.term >= x.currentTerm && PrevMatches(x1, req) {
      AbsorbFlows(x1, req);
    }
  }

  lemma LeaderFlows(cfg: Config, x: NodeState)
    requires x.commitIndex <= |x.log|
    ensures Flows(x, MaybeAdvanceCommit(cfg, x))
  {
    assert x.out + Commands([]) == x.out;
  }

  lemma ProposeFlows(cfg: Config, x: NodeState, data: Bytes)
    requires x.commitIndex <= |x.log|
    ensures Flows(x, Propose(cfg, x, data))
  {
    assert x.out + Commands([]) == x.out;
    if x.role == Leader {
      LeaderFlows(cfg, Appended(x, Entry(|x.log| + 1, x.currentTerm, data)));
    }
  }

  lemma AppendResponseFlows(cfg: Config, x: NodeState, peer: NodeId, req: AppendRequest, resp: AppendResponse)
    requires x.commitIndex <= |x.log|
    ensures Flows(x, HandleAppendResponse(cfg, x, peer, req, resp))
  {
    assert x.out + Commands([]) == x.out;
    LeaderFlows(cfg, x);
    var matchIndex, nextIndex := x.matchIndex[peer := Reach(req)], x.nextIndex[peer := Reach(req) + 1];
    LeaderFlows(cfg, x.(matchIndex := matchIndex, nextIndex := nextIndex));
  }

  ghost predicate Plain(step: Step) {
    !step.Compact? && !step.DeliverSnapshotCall? && !step.CrashAndRestart? && !step.DeliverAppendCall?
  }

  /** The handlers of timeouts, votes and snapshot answers hand out nothing. */
  ghost predicate Silent(x: NodeState, x': NodeState) {
    && x'.base == x.base && x'.log == x.log && x'.commitIndex == x.commitIndex && x'.out == x.out
    && x'.snapIndex == x.snapIndex && x'.disk.snapshot == x.disk.snapshot && x'.transfer == x.transfer
  }

  lemma SilentFlows(x: NodeState, x': NodeState)
    requires Silent(x, x') && x.commitIndex <= |x.log|
    ensures Flows(x, x')
  {
    assert x.out + Commands([]) == x.out;
  }

  lemma CallsAreSilent(s: Cluster, step: Step)
    requires Enabled(s, step)
    requires step.Timeout? || step.DeliverVoteCall? || step.Replicate? || step.SendChunk?
    ensures Silent(s.nodes[Perform(s, step).n], Perform(s, step).x)
  {
  }

  lemma RepliesAreSilent(s: Cluster, step: Step)
    requires Enabled(s, step) && (step.DeliverVoteReply? || step.DeliverSnapshotReply?)
    ensures Silent(s.nodes[Perform(s, step).n], Perform(s, step).x)
  {
  }

  lemma PlainFlows(s: Cluster, step: Step)
    requires Enabled(s, step) && Plain(step)
    requires var x := s.nodes[Perform(s, step).n]; x.commitIndex <= |x.log|
    ensures Flows(s.nodes[Perform(s, step).n], Perform(s, step).x)
  {
    var x := s.nodes[Perform(s, step).n];
    if step.ClientPropose? {
      ProposeFlows(Cfg(s, step.n), x, step.data);
    } else if step.DeliverAppendReply? {
      AppendResponseFlows(Cfg(s, step.m.dst), x, step.m.src, step.m.append, step.m.appendResp);
    } else {
      if step.DeliverVoteReply? || step.DeliverSnapshotReply? {
        RepliesAreSilent(s, step);
      } else {
        CallsAreSilent(s, step);
      }
      SilentFlows(x, Perform(s, step).x);
    }
  }

  lemma CommitInLog(s: Cluster, n: NodeId)
    requires Good(s) && n in s.nodes
    ensures s.nodes[n].commitIndex <= |s.nodes[n].log|
  {
    NodeFacts(s, n);
  }

  lemma ClampedCommit(s: Cluster, m: Message)
    requires Good(s) && m in s.net && m.AppendCall? && m.dst in s.nodes
    ensures var (x', resp) := HandleAppendEntries(s.nodes[m.dst], m.append);
            resp.success ==> s.nodes[m.dst].commitIndex <= x'.commitIndex <= |x'.log|
  {
    if HandleAppendEntries(s.nodes[m.dst], m.append).1.success {
      ClampIsSafe(s, m);
    }
  }

  lemma AppendCallFlows(s: Cluster, m: Message)
    requires Good(s) && m in s.net && m.AppendCall? && m.dst in s.nodes
    ensures Flows(s.nodes[m.dst], HandleAppendEntries(s.nodes[m.dst], m.append).0)
  {
    CommitInLog(s, m.dst);
    ClampedCommit(s, m);
    AppendFlows(s.nodes[m.dst], m.append);
  }

  // ---------------------------------------------------------------- installing a snapshot

  /** What handling a chunk does to the fields the stream depends on. */
  ghost predicate ChunkOutcome(x: NodeState, x': NodeState, req: SnapshotRequest) {
    if Installs(x, req) then
      && x'.base == x.base && x'.transfer == Idle && ReceiveChunk(x.transfer, req).Receiving?
      && x'.disk.snapshot == ReceiveChunk(x.transfer, req).data
      && x'.snapIndex == req.lastIncludedIndex == |x'.log|
      && x'.commitIndex == Max(x.commitIndex, req.lastIncludedIndex)
      && x'.out == x.out + [Snapshot(x'.disk.snapshot, x'.snapIndex, x'.snapTerm)]
    else
      Advanced(x, x') && (x'.transfer == x.transfer || x'.transfer == ReceiveChunk(x.transfer, req))
  }

  lemma ChunkEffect(x: NodeState, req: SnapshotRequest, covered: seq<Entry>)
    requires x.commitIndex <= |x.log|
    ensures ChunkOutcome(x, HandleInstallSnapshot(x, req, covered).0, req)
  {
    assert x.out + Commands([]) == x.out;
  }

  lemma InstallingNode(enc: Encoder, s: Cluster, s': Cluster, m: Message)
    requires Good(s) && Advances(s, s') && Streaming(enc, s) && m in s.net && m.SnapshotCall?
    requires m.dst in s.nodes && m.dst in s'.nodes
    requires s'.nodes[m.dst] == HandleInstallSnapshot(s.nodes[m.dst], m.snap, Covered(s, m.snap)).0
    ensures NodeStreams(enc, s'.core, s'.nodes[m.dst])
  {
    var x, x' := s.nodes[m.dst], s'.nodes[m.dst];
    CommitInLog(s, m.dst);
    CommittedStays(s, s', m.dst);
    ChunkEffect(x, m.snap, Covered(s, m.snap));
    NodesSettle(s', m.dst);
    ChunkTrueCarries(s.core, s'.core, enc, m.snap);
    BufferTrueCarries(s.core, s'.core, enc, x.transfer);
    ReceivedStreams(enc, s'.core, x, x', m.snap);
  }

  lemma NodesSettle(s: Cluster, n: NodeId)
    requires Good(s) && n in s.nodes
    ensures Complete(s.core) && s.nodes[n].commitIndex <= |s.nodes[n].log|
    ensures Settles(s.core, s.nodes[n].log[..s.nodes[n].commitIndex])
  {
    LeadersComplete(s.core);
    NodeFacts(s, n);
    var x := s.nodes[n];
    assert CommittedUpTo(s.core, x.log, x.commitIndex, x.currentTerm);
    PrefixSettles(s.core, x.log, x.commitIndex, x.commitIndex, x.currentTerm);
  }

  lemma ReceivedStreams(enc: Encoder, c: Core, x: NodeState, x': NodeState, req: SnapshotRequest)
    requires Complete(c) && StreamOk(enc, x) && BufferTrue(c, enc, x.transfer) && ChunkTrue(c, enc, req)
    requires Indexed(x'.log) && x'.commitIndex <= |x'.log| && Settles(c, x'.log[..x'.commitIndex])
    requires x.commitIndex <= x'.commitIndex ==> Agree(x'.log, x.log, x.commitIndex)
    requires ChunkOutcome(x, x', req)
    ensures NodeStreams(enc, c, x')
  {
    var l: seq<Entry> :| ChunkFor(c, enc, req, l);
    ReceiveKeepsTrue(c, enc, x.transfer, req, l);
    if Installs(x, req) {
      assert x'.log[..x'.commitIndex] == x'.log;
      SettlesOnce(c, l, x'.log);
      InstalledStreams(enc, x, x');
    } else {
      AdvancedStreams(enc, x, x');
    }
  }

  // ---------------------------------------------------------------- every step

  lemma SnapshotSettles(s: Cluster, n: NodeId)
    requires Good(s) && n in s.nodes
    ensures s.nodes[n].snapIndex <= |s.nodes[n].log| && Settles(s.core, s.nodes[n].log[..s.nodes[n].snapIndex])
  {
    NodeFacts(s, n);
    var x := s.nodes[n];
    assert CommittedUpTo(s.core, x.log, x.commitIndex, x.currentTerm);
    PrefixSettles(s.core, x.log, x.commitIndex, x.snapIndex, x.currentTerm);
  }

  /** Chunks are cut from a snapshot of committed entries. */
  lemma CutChunkTrue(enc: Encoder, c: Core, c': Core, x: NodeState, req: SnapshotRequest)
    requires Grows(c, c') && StreamOk(enc, x) && x.snapIndex > 0 && Settles(c, x.log[..x.snapIndex])
    requires req.lastIncludedIndex == x.snapIndex && ChunkOf(x.disk.snapshot, req.offset, req.data, req.done)
    ensures ChunkTrue(c', enc, req)
  {
    SettlesCarries(c, c', x.log[..x.snapIndex]);
    assert ChunkFor(c', enc, req, x.log[..x.snapIndex]);
  }

  ghost predicate SentTrue(enc: Encoder, c: Core, sent: set<Message>) {
    forall m :: m in sent && m.SnapshotCall? ==> ChunkTrue(c, enc, m.snap)
  }

  /** Only sending a chunk puts a chunk on the network. */
  lemma ChunksSent(s: Cluster, step: Step, m: Message)
    requires Enabled(s, step) && m in Perform(s, step).sent && m.SnapshotCall?
    ensures step.SendChunk? && m.snap.lastIncludedIndex == s.nodes[step.n].snapIndex
    ensures m.snap.offset == step.offset && m.snap.data == step.data && m.snap.done == step.done
  {
  }

  lemma SentChunkTrue(enc: Encoder, s: Cluster, c': Core, step: Step, m: Message)
    requires Good(s) && Grows(s.core, c') && Streaming(enc, s) && Enabled(s, step) && Faithful(enc, s, step)
    requires m in Perform(s, step).sent && m.SnapshotCall?
    ensures ChunkTrue(c', enc, m.snap)
  {
    ChunksSent(s, step, m);
    SnapshotSettles(s, step.n);
    assert NodeStreams(enc, s.core, s.nodes[step.n]);
    CutChunkTrue(enc, s.core, c', s.nodes[step.n], m.snap);
  }

  lemma PerformSendsTrue(enc: Encoder, s: Cluster, c': Core, step: Step)
    requires Good(s) && Grows(s.core, c') && Streaming(enc, s) && Enabled(s, step) && Faithful(enc, s, step)
    ensures SentTrue(enc, c', Perform(s, step).sent)
  {
    forall m | m in Perform(s, step).sent && m.SnapshotCall? ensures ChunkTrue(c', enc, m.snap) {
      SentChunkTrue(enc, s, c', step, m);
    }
  }

  lemma CompactingNode(enc: Encoder, s: Cluster, s': Cluster, n: NodeId, e: Entry, data: Bytes)
    requires Grows(s.core, s'.core) && n in s.nodes && NodeStreams(enc, s.core, s.nodes[n])
    requires e.index <= |s.nodes[n].log| ==> data == enc(s.nodes[n].log[..e.index])
    ensures NodeStreams(enc, s'.core, CompactLog(s.nodes[n], data, e.index, e.term))
  {
    CompactedStreams(enc, s.nodes[n], data, e.index, e.term);
    BufferTrueCarries(s.core, s'.core, enc, s.nodes[n].transfer);
  }

  lemma RestartingNode(enc: Encoder, s: Cluster, s': Cluster, n: NodeId)
    requires Good(s) && n in s.nodes && NodeStreams(enc, s.core, s.nodes[n]) && DiskInStep(s.nodes[n])
    ensures NodeStreams(enc, s'.core, Restart(s.nodes[n].disk, s.nodes[n].log[..s.nodes[n].snapIndex]))
  {
    NodeFacts(s, n);
    RestartedStreams(enc, s.nodes[n]);
  }

  lemma FlowingNode(enc: Encoder, s: Cluster, s': Cluster, step: Step)
    requires Good(s) && Advances(s, s') && Enabled(s, step)
    requires Plain(step) || step.DeliverAppendCall?
    requires var o := Perform(s, step); s'.nodes == s.nodes[o.n := o.x] && NodeStreams(enc, s.core, s.nodes[o.n])
    ensures NodeStreams(enc, s'.core, Perform(s, step).x)
  {
    var o := Perform(s, step);
    if step.DeliverAppendCall? {
      AppendCallFlows(s, step.m);
    } else {
      CommitInLog(s, o.n);
      PlainFlows(s, step);
    }
    AdvancingNode(enc, s, s', o.n);
  }

  lemma InstallingStep(s: Cluster, m: Message)
    requires Enabled(s, DeliverSnapshotCall(m))
    ensures m.SnapshotCall? && m in s.net && m.dst in s.nodes
    ensures var o := Perform(s, DeliverSnapshotCall(m));
            o.n == m.dst && o.x == HandleInstallSnapshot(s.nodes[m.dst], m.snap, Covered(s, m.snap)).0
  {
  }

  lemma SnapshottingNode(enc: Encoder, s: Cluster, s': Cluster, step: Step)
    requires Good(s) && Grows(s.core, s'.core) && Enabled(s, step) && Faithful(enc, s, step)
    requires step.Compact? || step.CrashAndRestart?
    requires NodeStreams(enc, s.core, s.nodes[step.n])
    ensures NodeStreams(enc, s'.core, Perform(s, step).x)
  {
    if step.Compact? {
      CompactingNode(enc, s, s', step.n, step.entry, step.data);
    } else {
      RestartingNode(enc, s, s', step.n);
    }
  }

  lemma OwnStepStreams(enc: Encoder, s: Cluster, s': Cluster, step: Step, o: Outcome)
    requires Good(s) && Advances(s, s') && Enabled(s, step) && Faithful(enc, s, step) && !step.DeliverSnapshotCall?
    requires o == Perform(s, step) && s'.nodes == s.nodes[o.n := o.x] && NodeStreams(enc, s.core, s.nodes[o.n])
    ensures NodeStreams(enc, s'.core, o.x)
  {
    if step.Compact? || step.CrashAndRestart? {
      assert o.n == step.n;
      SnapshottingNode(enc, s, s', step);
    } else {
      FlowingNode(enc, s, s', step);
    }
  }

  lemma MovedNodeStreams(enc: Encoder, s: Cluster, s': Cluster, step: Step, o: Outcome)
    requires Good(s) && Advances(s, s') && Streaming(enc, s) && Enabled(s, step) && Faithful(enc, s, step)
    requires o == Perform(s, step) && s'.nodes == s.nodes[o.n := o.x]
    ensures NodeStreams(enc, s'.core, o.x)
  {
    assert NodeStreams(enc, s.core, s.nodes[o.n]);
    if step.DeliverSnapshotCall? {
      InstallingStep(s, step.m);
      InstallingNode(enc, s, s', step.m);
    } else {
      OwnStepStreams(enc, s, s', step, o);
    }
  }

  lemma PutStreams(enc: Encoder, s: Cluster, s': Cluster, n: NodeId, x: NodeState, sent: set<Message>)
    requires Streaming(enc, s) && Grows(s.core, s'.core) && s'.nodes == s.nodes[n := x] && s'.net == s.net + sent
    requires NodeStreams(enc, s'.core, x) && SentTrue(enc, s'.core, sent)
    ensures Streaming(enc, s')
  {
    forall m | m in s'.nodes ensures NodeStreams(enc, s'.core, s'.nodes[m]) {
      if m != n {
        BufferTrueCarries(s.core, s'.core, enc, s.nodes[m].transfer);
      }
    }
    forall m | m in s'.net && m.SnapshotCall? ensures ChunkTrue(s'.core, enc, m.snap) {
      if m in s.net {
        ChunkTrueCarries(s.core, s'.core, enc, m.snap);
      }
    }
  }

  lemma StepStreams(enc: Encoder, s: Cluster, step: Step)
    requires Good(s) && Streaming(enc, s) && Enabled(s, step) && Faithful(enc, s, step)
    ensures Streaming(enc, Apply(s, step))
  {
    var s' := Apply(s, step);
    StepKeeps(s, step);
    var o := Perform(s, step);
    MovedNodeStreams(enc, s, s', step, o);
    PerformSendsTrue(enc, s, s'.core, step);
    PutStreams(enc, s, s', o.n, o.x, o.sent);
  }

  lemma NextStreams(enc: Encoder, s: Cluster, s': Cluster)
    requires Good(s) && Streaming(enc, s) && FaithfulNext(enc, s, s')
    ensures Streaming(enc, s')
  {
    var step :| Enabled(s, step) && Faithful(enc, s, step) && s' == Apply(s, step);
    StepStreams(enc, s, step);
  }

  lemma InitStreams(enc: Encoder, s: Cluster)
    requires Init(s)
    ensures Streaming(enc, s)
  {
    var x := Restart(BLANK_DISK, []);
    forall n | n in s.nodes ensures NodeStreams(enc, s.core, s.nodes[n]) {
      assert s.nodes[n] == x;
    }
  }

  lemma RunStreamsOn(enc: Encoder, run: seq<Cluster>, i: nat, s: Cluster, s': Cluster)
    requires IsFaithfulRun(enc, run) && i + 1 < |run| && s == run[i] && s' == run[i + 1] && Streaming(enc, s)
    ensures Streaming(enc, s')
  {
    RunIsGood(run, i);
    assert FaithfulAt(enc, run, i);
    NextStreams(enc, s, s');
  }

  lemma {:induction false} RunStreams(enc: Encoder, run: seq<Cluster>, i: nat)
    requires IsFaithfulRun(enc, run) && i < |run|
    ensures Streaming(enc, run[i])
  {
    if i == 0 {
      InitStreams(enc, run[0]);
    } else {
      RunStreams(enc, run, i - 1);
      RunStreamsOn(enc, run, i - 1, run[i - 1], run[i]);
    }
  }

  // ---------------------------------------------------------------- theorems

  /**
   In every state of every run, what a node handed out since it started is gapless from where it started up to
   its commit index, every command is the entry its log has there, and every snapshot, whatever chunks it was
   put together from, is byte for byte the snapshot of the entries it stands for.
   */
  lemma StreamIsGapless(enc: Encoder, run: seq<Cluster>, i: nat, n: NodeId)
    requires IsFaithfulRun(enc, run) && i < |run| && n in run[i].nodes
    ensures StreamOk(enc, run[i].nodes[n])
  {
    RunStreams(enc, run, i);
    assert NodeStreams(enc, run[i].core, run[i].nodes[n]);
  }

  /** What any two nodes know to be committed, at any two moments, is the same as far as both reach. */
  lemma CommittedLogsAgree(run: seq<Cluster>, i: nat, j: nat, a: NodeId, b: NodeId, k: nat)
    requires IsRun(run) && i < |run| && j < |run| && a in run[i].nodes && b in run[j].nodes
    requires k <= run[i].nodes[a].commitIndex && k <= run[j].nodes[b].commitIndex
    ensures k <= |run[i].nodes[a].log| && k <= |run[j].nodes[b].log|
    ensures run[i].nodes[a].log[..k] == run[j].nodes[b].log[..k]
  {
    LaterGrows(run, i, j);
    var c := run[Later(run, i, j)].core;
    CommittedIsRecorded(run, i, c, a, k);
    CommittedIsRecorded(run, j, c, b, k);
    RunIsComplete(run, Later(run, i, j));
    CommittedPrefixesAgree(c, run[i].nodes[a].log, k, run[i].nodes[a].currentTerm,
                           run[j].nodes[b].log, k, run[j].nodes[b].currentTerm);
  }
}
