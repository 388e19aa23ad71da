/** What a leader commits: not only what it may, but all that it may, as soon as it may. */
module RaftCommits {

  import opened Bytes
  import opened RaftTypes
  import opened RaftSpec
  import opened RaftCore
  import opened RaftCluster
  import opened RaftInvariant
  import opened RaftElectionSteps
  import opened RaftSafety

  // ---------------------------------------------------------------- one call

  /** The peers known to have entry j. */
  function Holders(cfg: Config, x: NodeState, j: nat): set<NodeId> {
    set p | p in cfg.peers && At(x.matchIndex, p) >= j
  }

  /** Entry j is of the node's term, and with the node itself more than half of the cluster is known to have it. */
  predicate Due(cfg: Config, x: NodeState, j: nat)
    requires j <= |x.log|
  {
    TermAt(x.log, j) == x.currentTerm && 2 * (1 + |Holders(cfg, x, j)|) > 1 + |cfg.peers|
  }

  lemma DueIffReplicated(cfg: Config, x: NodeState, j: nat)
    requires 0 < j <= |x.log| && x.matchIndex.Keys <= cfg.peers && cfg.id !in cfg.peers
    ensures Due(cfg, x, j) <==> Replicated(cfg, x, j)
  {
    assert Holders(cfg, x, j) == Replicas(cfg, x, j);
  }

  lemma {:induction false} CommittableIsHighest(cfg: Config, x: NodeState, i: nat, j: nat)
    requires x.commitIndex < j <= i <= |x.log| && Replicated(cfg, x, j)
    ensures Committable(cfg, x, i) >= j
  {
    if !Replicated(cfg, x, i) {
      CommittableIsHighest(cfg, x, i - 1, j);
    }
  }

  lemma {:induction false} CommittableIsDue(cfg: Config, x: NodeState, i: nat)
    requires i <= |x.log|
    ensures var k := Committable(cfg, x, i); k > x.commitIndex ==> Replicated(cfg, x, k)
  {
    if i > x.commitIndex && !Replicated(cfg, x, i) {
      CommittableIsDue(cfg, x, i - 1);
    }
  }

  /** The new commit index is the highest that is due, or the old one if none above it is. */
  lemma CommitsHighestDue(cfg: Config, x: NodeState)
    requires x.matchIndex.Keys <= cfg.peers && cfg.id !in cfg.peers
    ensures var x' := MaybeAdvanceCommit(cfg, x);
            && x' == x.(commitIndex := x'.commitIndex, out := x'.out) && x.commitIndex <= x'.commitIndex
            && (x'.commitIndex > x.commitIndex ==> x'.commitIndex <= |x.log| && Due(cfg, x, x'.commitIndex))
            && forall j: nat :: x'.commitIndex < j <= |x.log| ==> !Due(cfg, x, j)
  {
    var k := Committable(cfg, x, |x.log|);
    CommittableIsDue(cfg, x, |x.log|);
    if k > x.commitIndex {
      DueIffReplicated(cfg, x, k);
    }
    forall j: nat | k < j <= |x.log| ensures !Due(cfg, x, j) {
      DueIffReplicated(cfg, x, j);
      if Due(cfg, x, j) {
        CommittableIsHighest(cfg, x, |x.log|, j);
      }
    }
  }

  // ---------------------------------------------------------------- every step

  /** Nothing is due that a leader has not committed, and nothing can be when a candidate comes to lead. */
  ghost predicate Prompt(cfg: Config, x: NodeState) {
    && (x.role == Candidate ==> forall k :: 0 <= k < |x.log| ==> x.log[k].term < x.currentTerm)
    && (x.role == Leader ==> forall j: nat :: x.commitIndex < j <= |x.log| ==> !Due(cfg, x, j))
  }

  /** The node follows, or all that matters here is as it was. */
  predicate Still(x: NodeState, x': NodeState) {
    || x'.role == Follower
    || (&& x'.role == x.role && x'.currentTerm == x.currentTerm && x'.log == x.log
        && x'.commitIndex == x.commitIndex && x'.matchIndex == x.matchIndex)
  }

  lemma StillPrompt(cfg: Config, x: NodeState, x': NodeState)
    requires Prompt(cfg, x) && Still(x, x')
    ensures Prompt(cfg, x')
  {
    if x'.role == Leader {
      forall j: nat | x'.commitIndex < j <= |x'.log| ensures !Due(cfg, x', j) {
        assert Holders(cfg, x', j) == Holders(cfg, x, j) && !Due(cfg, x, j);
      }
    }
  }

  lemma StandsPrompt(cfg: Config, x: NodeState)
    requires Bounded(x.log, x.currentTerm)
    ensures Prompt(cfg, StartElection(cfg, x))
  {
  }

  lemma CountsPrompt(cfg: Config, x: NodeState, p: NodeId, req: VoteRequest, resp: VoteResponse)
    requires Prompt(cfg, x)
    ensures Prompt(cfg, HandleVoteResponse(cfg, x, p, req, resp))
  {
    var x' := HandleVoteResponse(cfg, x, p, req, resp);
    if x.role == Leader || x'.role == Follower {
      assert Still(x, x');
      StillPrompt(cfg, x, x');
    }
  }

  lemma CallsStill(x: NodeState, vote: VoteRequest, append: AppendRequest, snap: SnapshotRequest, covered: seq<Entry>)
    ensures Still(x, HandleRequestVote(x, vote).0) && Still(x, HandleAppendEntries(x, append).0)
    ensures Still(x, HandleInstallSnapshot(x, snap, covered).0)
  {
  }

  lemma AdvancePrompt(cfg: Config, x: NodeState)
    requires x.matchIndex.Keys <= cfg.peers && cfg.id !in cfg.peers && x.role == Leader
    ensures Prompt(cfg, MaybeAdvanceCommit(cfg, x))
  {
    var x' := MaybeAdvanceCommit(cfg, x);
    CommitsHighestDue(cfg, x);
    forall j: nat | x'.commitIndex < j <= |x'.log| ensures !Due(cfg, x', j) {
      assert Holders(cfg, x', j) == Holders(cfg, x, j) && !Due(cfg, x, j);
    }
  }

  lemma ProposePrompt(cfg: Config, x: NodeState, data: Bytes)
    requires Prompt(cfg, x) && x.matchIndex.Keys <= cfg.peers && cfg.id !in cfg.peers
    ensures Prompt(cfg, Propose(cfg, x, data))
  {
    if x.role == Leader {
      var e := Entry(|x.log| + 1, x.currentTerm, data);
      AdvancePrompt(cfg, x.(log := x.log + [e], disk := x.disk.(entries := x.disk.entries + [e])));
    }
  }

  lemma ReplyPrompt(cfg: Config, x: NodeState, p: NodeId, req: AppendRequest, resp: AppendResponse)
    requires Prompt(cfg, x) && x.matchIndex.Keys <= cfg.peers && cfg.id !in cfg.peers && p in cfg.peers
    ensures Prompt(cfg, HandleAppendResponse(cfg, x, p, req, resp))
  {
    var x', m := HandleAppendResponse(cfg, x, p, req, resp), Reach(req);
    if resp.term > x.currentTerm || x.role != Leader || x.currentTerm != req.term || !resp.success {
      assert Still(x, x');
      StillPrompt(cfg, x, x');
    } else if m > At(x.matchIndex, p) {
      AdvancePrompt(cfg, x.(matchIndex := x.matchIndex[p := m], nextIndex := x.nextIndex[p := m + 1]));
    } else {
      AdvancePrompt(cfg, x);
    }
  }

  lemma SnapshotReplyPrompt(cfg: Config, x: NodeState, p: NodeId, req: SnapshotRequest, resp: SnapshotResponse)
    requires Prompt(cfg, x)
    requires x.role == Leader && x.currentTerm == req.term ==> req.lastIncludedIndex <= x.commitIndex
    ensures Prompt(cfg, HandleSnapshotResponse(x, p, req, resp))
  {
    var x' := HandleSnapshotResponse(x, p, req, resp);
    if x'.role == Leader {
      forall j: nat | x'.commitIndex < j <= |x'.log| ensures !Due(cfg, x', j) {
        assert Holders(cfg, x', j) == Holders(cfg, x, j) && !Due(cfg, x, j);
      }
    }
  }

  /** A snapshot on its way from, or confirmed to, the leader that sent it ends at or below its commit index. */
  ghost predicate Below(n: NodeId, x: NodeState, m: Message) {
    (m.SnapshotCall? && m.src == n) || (m.SnapshotReply? && m.dst == n) ==>
      x.role == Leader && x.currentTerm == m.snap.term ==> m.snap.lastIncludedIndex <= x.commitIndex
  }

  ghost predicate AllPrompt(s: Cluster) {
    && (forall n :: n in s.nodes ==> Prompt(Cfg(s, n), s.nodes[n]))
    && (forall n, m :: n in s.nodes && m in s.net ==> Below(n, s.nodes[n], m))
  }

  /** Steps that do not make a leader or tell it of a match. */
  lemma OthersStill(s: Cluster, step: Step)
    requires Enabled(s, step)
    requires step.DeliverVoteCall? || step.DeliverAppendCall? || step.DeliverSnapshotCall? || step.Replicate?
          || step.SendChunk? || step.CrashAndRestart?
    ensures var o := Perform(s, step); Still(s.nodes[o.n], o.x)
  {
    var vote, append := VoteRequest(0, NO_NODE, 0, 0), AppendRequest(0, NO_NODE, 0, 0, [], 0);
    var snap := SnapshotRequest(0, NO_NODE, 0, 0, 0, [], false);
    match step
    case DeliverVoteCall(m) => CallsStill(s.nodes[m.dst], m.vote, append, snap, []);
    case DeliverAppendCall(m) => CallsStill(s.nodes[m.dst], vote, m.append, snap, []);
    case DeliverSnapshotCall(m) => CallsStill(s.nodes[m.dst], vote, append, m.snap, Covered(s, m.snap));
    case _ =>
  }

  lemma CompactStill(x: NodeState, data: Bytes, index: nat, term: nat)
    requires x.commitIndex <= |x.log|
    ensures Still(x, CompactLog(x, data, index, term))
  {
  }

  lemma TimeoutPrompt(s: Cluster, n: NodeId)
    requires Good(s) && Enabled(s, Timeout(n))
    ensures Prompt(Cfg(s, n), Perform(s, Timeout(n)).x)
  {
    NodeFacts(s, n);
    assert Bounded(s.core.peers[n].log, s.core.peers[n].term);
    StandsPrompt(Cfg(s, n), s.nodes[n]);
  }

  lemma AnsweredPrompt(s: Cluster, m: Message)
    requires Sync(s) && NodesOk(s) && m.dst in s.nodes && MsgOk(s.core, m)
    requires Prompt(Cfg(s, m.dst), s.nodes[m.dst]) && Below(m.dst, s.nodes[m.dst], m)
    ensures var cfg, x := Cfg(s, m.dst), s.nodes[m.dst];
            && (m.AppendReply? ==> Prompt(cfg, HandleAppendResponse(cfg, x, m.src, m.append, m.appendResp)))
            && (m.SnapshotReply? ==> Prompt(cfg, HandleSnapshotResponse(x, m.src, m.snap, m.snapResp)))
  {
    var cfg, x := Cfg(s, m.dst), s.nodes[m.dst];
    NodeFacts(s, m.dst);
    if m.AppendReply? {
      ReplyPrompt(cfg, x, m.src, m.append, m.appendResp);
    } else if m.SnapshotReply? {
      SnapshotReplyPrompt(cfg, x, m.src, m.snap, m.snapResp);
    }
  }

  lemma OwnPrompt(s: Cluster, n: NodeId, data: Bytes, e: Entry)
    requires Sync(s) && NodesOk(s) && n in s.nodes && Prompt(Cfg(s, n), s.nodes[n])
    ensures Prompt(Cfg(s, n), Propose(Cfg(s, n), s.nodes[n], data))
    ensures Prompt(Cfg(s, n), CompactLog(s.nodes[n], data, e.index, e.term))
  {
    NodeFacts(s, n);
    ProposePrompt(Cfg(s, n), s.nodes[n], data);
    CompactStill(s.nodes[n], data, e.index, e.term);
    StillPrompt(Cfg(s, n), s.nodes[n], CompactLog(s.nodes[n], data, e.index, e.term));
  }

  lemma LeadersPrompt(s: Cluster, step: Step)
    requires Sync(s) && NodesOk(s) && MsgsOk(s) && AllPrompt(s) && Enabled(s, step)
    requires step.ClientPropose? || step.Compact? || step.DeliverAppendReply? || step.DeliverSnapshotReply?
    ensures var o := Perform(s, step); Prompt(Cfg(s, o.n), o.x)
  {
    match step
    case ClientPropose(n, data) => OwnPrompt(s, n, data, Entry(0, 0, []));
    case Compact(n, e, data) => OwnPrompt(s, n, data, e);
    case DeliverAppendReply(m) => AnsweredPrompt(s, m);
    case DeliverSnapshotReply(m) => AnsweredPrompt(s, m);
  }

  lemma CountedPrompt(s: Cluster, m: Message)
    requires AllPrompt(s) && Enabled(s, DeliverVoteReply(m))
    ensures Prompt(Cfg(s, m.dst), Perform(s, DeliverVoteReply(m)).x)
  {
    CountsPrompt(Cfg(s, m.dst), s.nodes[m.dst], m.src, m.vote, m.voteResp);
  }

  lemma MovedPrompt(s: Cluster, step: Step)
    requires Good(s) && AllPrompt(s) && Enabled(s, step)
    ensures var o := Perform(s, step); Prompt(Cfg(s, o.n), o.x)
  {
    if step.Timeout? {
      TimeoutPrompt(s, step.n);
    } else if step.DeliverVoteReply? {
      CountedPrompt(s, step.m);
    } else if step.ClientPropose? || step.Compact? || step.DeliverAppendReply? || step.DeliverSnapshotReply? {
      LeadersPrompt(s, step);
    } else {
      var o := Perform(s, step);
      OthersStill(s, step);
      StillPrompt(Cfg(s, o.n), s.nodes[o.n], o.x);
    }
  }

  // ---------------------------------------------------------------- snapshots on their way

  predicate Elects(step: Step) { step.Timeout? || step.DeliverVoteReply? }

  /** A node that leads after a step led before, in the same term and with no higher commit index, or was elected. */
  predicate LedBefore(x: NodeState, x': NodeState) {
    x'.role == Leader ==> x.role == Leader && x.currentTerm == x'.currentTerm && x.commitIndex <= x'.commitIndex
  }

  lemma LeadersLed(cfg: Config, x: NodeState, p: NodeId, data: Bytes, append: AppendRequest, took: AppendResponse,
                   snap: SnapshotRequest, got: SnapshotResponse)
    ensures LedBefore(x, Propose(cfg, x, data)) && LedBefore(x, HandleAppendResponse(cfg, x, p, append, took))
    ensures LedBefore(x, HandleSnapshotResponse(x, p, snap, got))
  {
  }

  lemma StepLed(s: Cluster, step: Step)
    requires Enabled(s, step) && !Elects(step)
    ensures var o := Perform(s, step); LedBefore(s.nodes[o.n], o.x)
  {
    var append, snap := AppendRequest(0, NO_NODE, 0, 0, [], 0), SnapshotRequest(0, NO_NODE, 0, 0, 0, [], false);
    var took, got := AppendResponse(0, false, 0, 0, 0), SnapshotResponse(0, false);
    match step
    case ClientPropose(n, data) => LeadersLed(Cfg(s, n), s.nodes[n], n, data, append, took, snap, got);
    case DeliverAppendReply(m) =>
      LeadersLed(Cfg(s, m.dst), s.nodes[m.dst], m.src, [], m.append, m.appendResp, snap, got);
    case DeliverSnapshotReply(m) =>
      LeadersLed(Cfg(s, m.dst), s.nodes[m.dst], m.src, [], append, took, m.snap, m.snapResp);
    case Compact(_, _, _) =>
    case _ => OthersStill(s, step);
  }

  /** Elected just now, or the leader it was before. */
  lemma ElectedLed(s: Cluster, step: Step)
    requires Enabled(s, step) && Elects(step)
    ensures var o := Perform(s, step); var x := s.nodes[o.n];
            || LedBefore(x, o.x) || x.currentTerm < o.x.currentTerm
            || (x.role == Candidate && x.currentTerm == o.x.currentTerm)
  {
  }

  /** No snapshot was sent by a node in a term it has not led in. */
  lemma NoneSentYet(s: Cluster, n: NodeId, t: nat, m: Message)
    requires Good(s) && n in s.nodes && m in s.net
    requires s.nodes[n].currentTerm < t || (s.nodes[n].role == Candidate && s.nodes[n].currentTerm == t)
    ensures (m.SnapshotCall? && m.src == n) || (m.SnapshotReply? && m.dst == n) ==> m.snap.term != t
  {
    NodeFacts(s, n);
    assert MsgOk(s.core, m);
    if t in s.core.elections {
      assert ElectionOk(s.core, t);
    }
  }

  lemma MovedBelow(s: Cluster, step: Step, m: Message)
    requires Good(s) && AllPrompt(s) && Enabled(s, step) && m in s.net
    ensures var o := Perform(s, step); Below(o.n, o.x, m)
  {
    var o := Perform(s, step);
    assert Below(o.n, s.nodes[o.n], m);
    if Elects(step) {
      ElectedLed(s, step);
      if !LedBefore(s.nodes[o.n], o.x) {
        NoneSentYet(s, o.n, o.x.currentTerm, m);
      }
    } else {
      StepLed(s, step);
    }
  }

  lemma SnapshotsSent(s: Cluster, step: Step, m: Message)
    requires Enabled(s, step) && m in Perform(s, step).sent
    ensures m.SnapshotCall? ==>
              && step.SendChunk? && m.src == step.n == Perform(s, step).n && Perform(s, step).x == s.nodes[step.n]
              && m.snap.lastIncludedIndex == s.nodes[step.n].snapIndex
    ensures m.SnapshotReply? ==>
              && step.DeliverSnapshotCall? && step.m.SnapshotCall? && step.m in s.net && m.snap == step.m.snap
              && m.dst == step.m.src && Perform(s, step).n == step.m.dst
  {
  }

  lemma SentBelow(s: Cluster, step: Step, m: Message, p: NodeId)
    requires Good(s) && AllPrompt(s) && Enabled(s, step) && m in Perform(s, step).sent && p in s.nodes
    ensures var o := Perform(s, step); Below(p, if p == o.n then o.x else s.nodes[p], m)
  {
    SnapshotsSent(s, step, m);
    if m.SnapshotCall? {
      NodeFacts(s, step.n);
    } else if m.SnapshotReply? {
      assert MsgOk(s.core, step.m) && Below(p, s.nodes[p], step.m);
    }
  }

  lemma PutPrompt(s: Cluster, s': Cluster, n: NodeId, x: NodeState, sent: set<Message>)
    requires AllPrompt(s) && n in s.nodes && s'.nodes == s.nodes[n := x] && s'.net == s.net + sent
    requires Prompt(Cfg(s, n), x) && forall m :: m in s.net ==> Below(n, x, m)
    requires forall p, m :: p in s.nodes && m in sent ==> Below(p, if p == n then x else s.nodes[p], m)
    ensures AllPrompt(s')
  {
    assert s'.nodes.Keys == s.nodes.Keys;
    forall p | p in s'.nodes ensures Prompt(Cfg(s', p), s'.nodes[p]) {
      assert Cfg(s', p) == Cfg(s, p);
    }
    forall p, m | p in s'.nodes && m in s'.net ensures Below(p, s'.nodes[p], m) {
      assert m in s.net ==> Below(p, s.nodes[p], m);
    }
  }

  lemma StepPrompt(s: Cluster, step: Step)
    requires Good(s) && AllPrompt(s) && Enabled(s, step)
    ensures AllPrompt(Apply(s, step))
  {
    var o := Perform(s, step);
    MovedPrompt(s, step);
    forall m | m in s.net ensures Below(o.n, o.x, m) {
      MovedBelow(s, step, m);
    }
    forall p, m | p in s.nodes && m in o.sent ensures Below(p, if p == o.n then o.x else s.nodes[p], m) {
      SentBelow(s, step, m, p);
    }
    PutPrompt(s, Apply(s, step), o.n, o.x, o.sent);
  }

  lemma NextPrompt(s: Cluster, s': Cluster)
    requires Good(s) && AllPrompt(s) && Next(s, s')
    ensures AllPrompt(s')
  {
    var step :| Enabled(s, step) && s' == Apply(s, step);
    StepPrompt(s, step);
  }

  lemma StartsPrompt(s: Cluster)
    requires Init(s)
    ensures AllPrompt(s)
  {
  }

  lemma PromptGoesOn(run: seq<Cluster>, i: nat, s: Cluster, s': Cluster)
    requires IsRun(run) && i + 1 < |run| && s == run[i] && s' == run[i + 1] && AllPrompt(s)
    ensures AllPrompt(s')
  {
    RunIsGood(run, i);
    RunSteps(run, i, s, s');
    NextPrompt(s, s');
  }

  lemma {:induction false} RunIsPrompt(run: seq<Cluster>, i: nat)
    requires IsRun(run) && i < |run|
    ensures AllPrompt(run[i])
  {
    if i == 0 {
      StartsPrompt(run[0]);
    } else {
      RunIsPrompt(run, i - 1);
      PromptGoesOn(run, i - 1, run[i - 1], run[i]);
    }
  }

  /**
   In every state of every run, a leader has committed every entry of its term that it knows more than half of the
   cluster to have, and with it all before.
   */
  lemma LeaderCommitsAllDue(run: seq<Cluster>, i: nat, n: NodeId, j: nat)
    requires IsRun(run) && i < |run| && n in run[i].nodes && run[i].nodes[n].role == Leader
    requires j <= |run[i].nodes[n].log| && Due(Cfg(run[i], n), run[i].nodes[n], j)
    ensures run[i].nodes[n].commitIndex >= j
  {
    RunIsPrompt(run, i);
  }
}
