/**
 Runs in which a node may crash and restart at any moment: if every batch that is accepted brings only new entries,
 and snapshots are installed only over logs they cover, storage is in step with memory in every state. Such runs are
 runs of the cluster, so whatever holds of those holds of these.
 */
module RaftDurable {

  import opened Wrappers
  import opened Bytes
  import opened RaftTypes
  import opened RaftSpec
  import opened RaftCluster
  import opened RaftInvariant
  import opened RaftElectionSteps
  import opened RaftSafety
  import opened RaftReplicas
  import opened RaftLimits

  /** A batch that is accepted brings only new entries. */
  predicate Careful(s: Cluster, step: Step)
    requires Enabled(s, step)
  {
    step.DeliverAppendCall? ==>
      var x := s.nodes[step.m.dst];
      HandleAppendEntries(x, step.m.append).1.success ==> BringsOnlyNew(x, step.m.append)
  }

  /** Node n comes back with what its disk has. */
  function Restarted(s: Cluster, n: NodeId): Cluster
    requires Present(s, n)
  {
    var x := s.nodes[n];
    Put(s, n, Restart(x.disk, if x.snapIndex <= |x.log| then x.log[..x.snapIndex] else []), {}, None)
  }

  ghost predicate CarefulNext(s: Cluster, s': Cluster) {
    || (exists step :: Enabled(s, step) && !step.CrashAndRestart? && Careful(s, step) && s' == Apply(s, step))
    || (exists n :: Present(s, n) && s' == Restarted(s, n))
  }

  ghost predicate CarefulAt(run: seq<Cluster>, i: nat) { i + 1 < |run| && CarefulNext(run[i], run[i + 1]) }

  ghost predicate IsCarefulRun(run: seq<Cluster>) {
    run != [] && Init(run[0]) && forall i: nat :: i + 1 < |run| ==> CarefulAt(run, i)
  }

  ghost predicate AllInStep(s: Cluster) { forall n :: n in s.nodes ==> DiskInStep(s.nodes[n]) }

  // ---------------------------------------------------------------- what the handlers do to storage

  ghost predicate SameStore(x: NodeState, x': NodeState) {
    x'.log == x.log && x'.snapIndex == x.snapIndex && x'.disk.entries == x.disk.entries
  }

  lemma ProposeInStep(cfg: Config, x: NodeState, data: Bytes)
    requires DiskInStep(x)
    ensures DiskInStep(Propose(cfg, x, data))
  {
    if x.role == Leader {
      var e := Entry(|x.log| + 1, x.currentTerm, data);
      assert (x.log + [e])[x.snapIndex..] == x.log[x.snapIndex..] + [e];
    }
  }

  lemma CompactInStep(x: NodeState, data: Bytes, index: nat, term: nat)
    requires DiskInStep(x) && Indexed(x.log) && x.commitIndex <= |x.log|
    ensures DiskInStep(CompactLog(x, data, index, term))
  {
    if x.snapIndex < index <= x.commitIndex {
      KeptAbove(x.log, x.snapIndex, |x.log|, index);
      assert x.log[x.snapIndex..|x.log|] == x.log[x.snapIndex..] && x.log[index..|x.log|] == x.log[index..];
    }
  }

  lemma AppendInStep(x: NodeState, req: AppendRequest)
    requires DiskInStep(x) && Indexed(x.log)
    requires HandleAppendEntries(x, req).1.success ==> BringsOnlyNew(x, req)
    ensures DiskInStep(HandleAppendEntries(x, req).0)
  {
    if HandleAppendEntries(x, req).1.success {
      StaysInStepIff(HearLeader(x, req.term, req.leaderId), req);
    }
  }

  lemma InstallInStep(x: NodeState, req: SnapshotRequest, covered: seq<Entry>)
    requires DiskInStep(x) && Indexed(x.log) && (Installs(x, req) ==> |x.log| <= req.lastIncludedIndex)
    ensures DiskInStep(HandleInstallSnapshot(x, req, covered).0)
  {
    if Installs(x, req) {
      AboveSnapshot(x.log, x.snapIndex, req.lastIncludedIndex);
    }
  }

  lemma VotingStore(cfg: Config, x: NodeState, peer: NodeId, req: VoteRequest, resp: VoteResponse)
    ensures SameStore(x, StartElection(cfg, x)) && SameStore(x, HandleRequestVote(x, req).0)
    ensures SameStore(x, HandleVoteResponse(cfg, x, peer, req, resp))
  {
  }

  lemma LeadingStore(cfg: Config, x: NodeState, peer: NodeId, req: AppendRequest, resp: AppendResponse)
    ensures SameStore(x, HandleAppendResponse(cfg, x, peer, req, resp))
  {
  }

  lemma PlainStepsStore(s: Cluster, step: Step)
    requires Enabled(s, step)
    requires !step.ClientPropose? && !step.Compact? && !step.DeliverAppendCall? && !step.DeliverSnapshotCall?
    requires !step.CrashAndRestart?
    ensures SameStore(s.nodes[Perform(s, step).n], Perform(s, step).x)
  {
    var x := s.nodes[Perform(s, step).n];
    match step
    case Timeout(n) => VotingStore(Cfg(s, n), x, n, VoteRequest(0, n, 0, 0), VoteResponse(0, false));
    case DeliverVoteCall(m) => VotingStore(Cfg(s, m.dst), x, m.src, m.vote, VoteResponse(0, false));
    case DeliverVoteReply(m) => VotingStore(Cfg(s, m.dst), x, m.src, m.vote, m.voteResp);
    case DeliverAppendReply(m) => LeadingStore(Cfg(s, m.dst), x, m.src, m.append, m.appendResp);
    case _ =>
  }

  lemma StoringSteps(s: Cluster, step: Step)
    requires Enabled(s, step) && Careful(s, step)
    requires step.ClientPropose? || step.Compact? || step.DeliverAppendCall? || step.DeliverSnapshotCall?
    requires var x := s.nodes[Perform(s, step).n]; DiskInStep(x) && Indexed(x.log) && x.commitIndex <= |x.log|
    ensures DiskInStep(Perform(s, step).x)
  {
    var x := s.nodes[Perform(s, step).n];
    match step
    case ClientPropose(n, data) => ProposeInStep(Cfg(s, n), x, data);
    case Compact(n, e, data) => CompactInStep(x, data, e.index, e.term);
    case DeliverAppendCall(m) => AppendInStep(x, m.append);
    case DeliverSnapshotCall(m) => InstallInStep(x, m.snap, Covered(s, m.snap));
  }

  lemma NodeInPlace(s: Cluster, n: NodeId)
    requires Good(s) && n in s.nodes
    ensures Indexed(s.nodes[n].log) && DiskOk(s.nodes[n])
  {
    NodeFacts(s, n);
    LogsIndexed(s.core, n);
  }

  lemma PutInStep(s: Cluster, n: NodeId, x: NodeState, sent: set<Message>, ack: Option<nat>)
    requires AllInStep(s) && Present(s, n) && DiskInStep(x)
    ensures AllInStep(Put(s, n, x, sent, ack))
  {
  }

  lemma MovedInStep(s: Cluster, step: Step)
    requires AllInStep(s) && Enabled(s, step) && Careful(s, step) && !step.CrashAndRestart?
    requires var x := s.nodes[Perform(s, step).n]; Indexed(x.log) && x.commitIndex <= |x.log|
    ensures DiskInStep(Perform(s, step).x)
  {
    assert DiskInStep(s.nodes[Perform(s, step).n]);
    if step.ClientPropose? || step.Compact? || step.DeliverAppendCall? || step.DeliverSnapshotCall? {
      StoringSteps(s, step);
    } else {
      PlainStepsStore(s, step);
    }
  }

  lemma StepInStep(s: Cluster, step: Step)
    requires Good(s) && AllInStep(s) && Enabled(s, step) && Careful(s, step) && !step.CrashAndRestart?
    ensures AllInStep(Apply(s, step))
  {
    var o := Perform(s, step);
    NodeInPlace(s, o.n);
    MovedInStep(s, step);
    PutInStep(s, o.n, o.x, o.sent, o.ack);
  }

  lemma RestartKeepsStore(x: NodeState)
    requires DiskOk(x) && DiskInStep(x)
    ensures DiskInStep(Restart(x.disk, x.log[..x.snapIndex]))
  {
    RestartRestoresLogIff(x);
  }

  /** A restart in step is one the cluster allows. */
  lemma RestartInStep(s: Cluster, n: NodeId)
    requires Good(s) && AllInStep(s) && Present(s, n)
    ensures Enabled(s, CrashAndRestart(n)) && Restarted(s, n) == Apply(s, CrashAndRestart(n))
    ensures AllInStep(Restarted(s, n))
  {
    var x := s.nodes[n];
    assert DiskInStep(x);
    NodeInPlace(s, n);
    RestartKeepsStore(x);
    PutInStep(s, n, Restart(x.disk, x.log[..x.snapIndex]), {}, None);
  }

  lemma CarefulNextKeeps(s: Cluster, s': Cluster)
    requires Good(s) && AllInStep(s) && CarefulNext(s, s')
    ensures Next(s, s') && Good(s') && AllInStep(s')
  {
    CarefulNextIsNext(s, s');
    NextKeeps(s, s');
  }

  lemma CarefulNextIsNext(s: Cluster, s': Cluster)
    requires Good(s) && AllInStep(s) && CarefulNext(s, s')
    ensures Next(s, s') && AllInStep(s')
  {
    if step :| Enabled(s, step) && !step.CrashAndRestart? && Careful(s, step) && s' == Apply(s, step) {
      StepInStep(s, step);
    } else {
      var n :| Present(s, n) && s' == Restarted(s, n);
      RestartInStep(s, n);
    }
  }

  lemma InitInStep(s: Cluster)
    requires Init(s)
    ensures AllInStep(s)
  {
    forall n | n in s.nodes ensures DiskInStep(s.nodes[n]) {
      assert s.nodes[n] == Restart(BLANK_DISK, []);
    }
  }

  lemma CarefulStarts(run: seq<Cluster>, s: Cluster)
    requires IsCarefulRun(run) && s == run[0]
    ensures Good(s) && AllInStep(s)
  {
    InitGood(s);
    InitInStep(s);
  }

  lemma CarefulSteps(run: seq<Cluster>, i: nat, s: Cluster, s': Cluster)
    requires IsCarefulRun(run) && i + 1 < |run| && s == run[i] && s' == run[i + 1]
    ensures CarefulNext(s, s')
  {
    assert CarefulAt(run, i);
  }

  lemma CarefulStepKeeps(run: seq<Cluster>, i: nat, s: Cluster, s': Cluster)
    requires IsCarefulRun(run) && i + 1 < |run| && s == run[i] && s' == run[i + 1] && Good(s) && AllInStep(s)
    ensures Good(s') && AllInStep(s') && Next(s, s')
  {
    CarefulSteps(run, i, s, s');
    CarefulNextKeeps(s, s');
  }

  lemma {:induction false} CarefulStates(run: seq<Cluster>, i: nat, s: Cluster)
    requires IsCarefulRun(run) && i < |run| && s == run[i]
    ensures Good(s) && AllInStep(s)
    decreases i
  {
    if i == 0 {
      CarefulStarts(run, s);
    } else {
      CarefulStates(run, i - 1, run[i - 1]);
      CarefulStepKeeps(run, i - 1, run[i - 1], s);
    }
  }

  lemma CarefulNexts(run: seq<Cluster>, i: nat)
    requires IsCarefulRun(run) && i + 1 < |run|
    ensures Next(run[i], run[i + 1])
  {
    CarefulStates(run, i, run[i]);
    CarefulStepKeeps(run, i, run[i], run[i + 1]);
  }

  /**
   Durability: crashes at any moment included, a run without repeated batches is a run of the cluster, and in each of
   its states every node would come back with the log it has.
   */
  lemma CarefulRunIsRun(run: seq<Cluster>)
    requires IsCarefulRun(run)
    ensures IsRun(run)
    ensures forall i, n :: 0 <= i < |run| && n in run[i].nodes ==> DiskInStep(run[i].nodes[n])
  {
    forall i: nat | i + 1 < |run| ensures StepAt(run, i) {
      CarefulNexts(run, i);
    }
    forall i, n | 0 <= i < |run| && n in run[i].nodes ensures DiskInStep(run[i].nodes[n]) {
      CarefulStates(run, i, run[i]);
    }
  }
}
