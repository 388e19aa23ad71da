/** What the cluster guarantees, said about what its nodes hold and hand out at any two moments of a run. */
module RaftTheorems {

  import opened Wrappers
  import opened Bytes
  import opened RaftTypes
  import opened RaftSpec
  import opened RaftCore
  import opened RaftCoreProofs
  import opened RaftCluster
  import opened RaftInvariant
  import opened RaftMoves
  import opened RaftElectionSteps
  import opened RaftFollowerSteps
  import opened RaftSafety

  lemma GrowsReflexive(c: Core)
    ensures Grows(c, c)
  {
  }

  lemma StepGrows(run: seq<Cluster>, i: nat)
    requires IsRun(run) && i + 1 < |run|
    ensures Grows(run[i].core, run[i + 1].core)
  {
    RunIsGood(run, i);
    RunSteps(run, i, run[i], run[i + 1]);
    NextKeeps(run[i], run[i + 1]);
  }

  /** Nothing recorded during a run is ever taken back. */
  lemma {:induction false} RunGrows(run: seq<Cluster>, i: nat, j: nat)
    requires IsRun(run) && i <= j < |run|
    ensures Grows(run[i].core, run[j].core)
    decreases j
  {
    if i == j {
      GrowsReflexive(run[i].core);
    } else {
      RunGrows(run, i, j - 1);
      StepGrows(run, j - 1);
      GrowsTransitive(run[i].core, run[j - 1].core, run[j].core);
    }
  }

  /** The record of the later of two states speaks for both. */
  function Later(run: seq<Cluster>, i: nat, j: nat): nat { if i < j then j else i }

  lemma LaterGrows(run: seq<Cluster>, i: nat, j: nat)
    requires IsRun(run) && i < |run| && j < |run|
    ensures Grows(run[i].core, run[Later(run, i, j)].core) && Grows(run[j].core, run[Later(run, i, j)].core)
  {
    RunGrows(run, i, Later(run, i, j));
    RunGrows(run, j, Later(run, i, j));
  }

  // ---------------------------------------------------------------- election safety

  lemma LeaderIsRecorded(run: seq<Cluster>, i: nat, c: Core, n: NodeId)
    requires IsRun(run) && i < |run| && n in run[i].nodes && run[i].nodes[n].role == Leader && Grows(run[i].core, c)
    ensures var t := run[i].nodes[n].currentTerm; t in c.elections && c.elections[t].leader == n
  {
    RunIsGood(run, i);
    NodeFacts(run[i], n);
  }

  /** Election safety: a term has at most one leader, over the whole run and across restarts. */
  lemma ElectionSafety(run: seq<Cluster>, i: nat, j: nat, a: NodeId, b: NodeId)
    requires IsRun(run) && i < |run| && j < |run| && a in run[i].nodes && b in run[j].nodes
    requires run[i].nodes[a].role == Leader && run[j].nodes[b].role == Leader
    requires run[i].nodes[a].currentTerm == run[j].nodes[b].currentTerm
    ensures a == b
  {
    LaterGrows(run, i, j);
    var c := run[Later(run, i, j)].core;
    LeaderIsRecorded(run, i, c, a);
    LeaderIsRecorded(run, j, c, b);
  }

  // ---------------------------------------------------------------- log matching

  lemma LogIsCoherent(run: seq<Cluster>, i: nat, c: Core, n: NodeId)
    requires IsRun(run) && i < |run| && n in run[i].nodes && LogsGrow(run[i].core.termLog, c.termLog)
    ensures Coherent(c.termLog, run[i].nodes[n].log)
  {
    RunIsGood(run, i);
    NodeFacts(run[i], n);
    assert Coherent(run[i].core.termLog, run[i].core.peers[n].log);
    CoherentCarries(run[i].core.termLog, c.termLog, run[i].nodes[n].log);
  }

  /** Log matching: logs with the same term at an index are identical up to it, whenever they are looked at. */
  lemma LogMatching(run: seq<Cluster>, i: nat, j: nat, a: NodeId, b: NodeId, k: nat)
    requires IsRun(run) && i < |run| && j < |run| && a in run[i].nodes && b in run[j].nodes
    requires k < |run[i].nodes[a].log| && k < |run[j].nodes[b].log|
    requires run[i].nodes[a].log[k].term == run[j].nodes[b].log[k].term
    ensures run[i].nodes[a].log[..k + 1] == run[j].nodes[b].log[..k + 1]
  {
    LaterGrows(run, i, j);
    var c := run[Later(run, i, j)].core;
    LogIsCoherent(run, i, c, a);
    LogIsCoherent(run, j, c, b);
    CoherentLogsMatch(c.termLog, run[i].nodes[a].log, run[j].nodes[b].log, k);
  }

  // ---------------------------------------------------------------- leader completeness

  lemma CommittedIsRecorded(run: seq<Cluster>, i: nat, c: Core, n: NodeId, k: nat)
    requires IsRun(run) && i < |run| && n in run[i].nodes && k <= run[i].nodes[n].commitIndex && Grows(run[i].core, c)
    ensures CommittedUpTo(c, run[i].nodes[n].log, k, run[i].nodes[n].currentTerm)
  {
    RunIsGood(run, i);
    NodeFacts(run[i], n);
    var x := run[i].nodes[n];
    assert CommittedUpTo(run[i].core, x.log, x.commitIndex, x.currentTerm);
    CommittedUpToLess(run[i].core, x.log, x.commitIndex, k, x.currentTerm);
    CommittedUpToGrows(run[i].core, c, x.log, x.log, k, x.currentTerm, x.currentTerm);
  }

  /** A leader's log extends the one it was elected with. */
  lemma LeaderLogExtends(run: seq<Cluster>, i: nat, c: Core, n: NodeId)
    requires IsRun(run) && i < |run| && n in run[i].nodes && run[i].nodes[n].role == Leader && Grows(run[i].core, c)
    ensures var t := run[i].nodes[n].currentTerm; t in c.elections && Extends(run[i].nodes[n].log, c.elections[t].log)
  {
    RunIsGood(run, i);
    NodeFacts(run[i], n);
    assert ElectionOk(run[i].core, run[i].nodes[n].currentTerm);
  }

  lemma CommittedInElected(run: seq<Cluster>, i: nat, log: seq<Entry>, k: nat, t: nat, u: nat)
    requires IsRun(run) && i < |run| && CommittedUpTo(run[i].core, log, k, t) && t < u && u in run[i].core.elections
    ensures Agree(run[i].core.elections[u].log, log, k)
  {
    RunIsGood(run, i);
    var c := run[i].core;
    if k > 0 {
      var t0: nat, i: nat :| t0 <= t && CommittedBy(c, log, k, t0, i);
      LeaderCompleteness(c, t0, i, u);
    }
  }

  /** Leader completeness: what any node knows to be committed is in the log of every leader of a later term. */
  lemma LeadersHoldCommitted(run: seq<Cluster>, i: nat, j: nat, a: NodeId, b: NodeId, k: nat)
    requires IsRun(run) && i < |run| && j < |run| && a in run[i].nodes && b in run[j].nodes
    requires k <= run[i].nodes[a].commitIndex
    requires run[j].nodes[b].role == Leader && run[j].nodes[b].currentTerm > run[i].nodes[a].currentTerm
    ensures k <= |run[i].nodes[a].log| && k <= |run[j].nodes[b].log|
    ensures run[j].nodes[b].log[..k] == run[i].nodes[a].log[..k]
  {
    LaterGrows(run, i, j);
    var c := run[Later(run, i, j)].core;
    CommittedIsRecorded(run, i, c, a, k);
    LeaderLogExtends(run, j, c, b);
    CommittedInElected(run, Later(run, i, j), run[i].nodes[a].log, k,
                       run[i].nodes[a].currentTerm, run[j].nodes[b].currentTerm);
    assert Agree(run[j].nodes[b].log, run[i].nodes[a].log, k);
  }

  // ---------------------------------------------------------------- state machine safety

  /** All that a node handed to its application since it started is on record. */
  ghost predicate HandedOut(s: Cluster) {
    forall n, p :: n in s.nodes && 0 <= p < |s.nodes[n].out| && s.nodes[n].out[p].Command? ==>
      Delivery(n, s.nodes[n].out[p].entry) in s.delivered
  }

  ghost predicate OutGrows(x: NodeState, x': NodeState) { x.out <= x'.out || x'.out == [] }

  lemma LeaderOutGrows(cfg: Config, x: NodeState, peer: NodeId, req: AppendRequest, resp: AppendResponse, data: Bytes)
    ensures OutGrows(x, HandleAppendResponse(cfg, x, peer, req, resp)) && OutGrows(x, Propose(cfg, x, data))
  {
  }

  lemma FollowerOutGrows(x: NodeState, req: AppendRequest)
    ensures OutGrows(x, HandleAppendEntries(x, req).0)
  {
  }

  lemma SnapshotOutGrows(x: NodeState, snap: SnapshotRequest, covered: seq<Entry>)
    ensures OutGrows(x, HandleInstallSnapshot(x, snap, covered).0)
  {
  }

  lemma PerformOutGrows(s: Cluster, step: Step)
    requires Enabled(s, step)
    ensures var o := Perform(s, step); OutGrows(s.nodes[o.n], o.x)
  {
    match step
    case ClientPropose(n, data) =>
      LeaderOutGrows(Cfg(s, n), s.nodes[n], n, AppendRequest(0, n, 0, 0, [], 0), AppendResponse(0, false, 0, 0, 0),
                     data);
    case DeliverAppendReply(m) =>
      LeaderOutGrows(Cfg(s, m.dst), s.nodes[m.dst], m.src, m.append, m.appendResp, []);
    case DeliverAppendCall(m) =>
      FollowerOutGrows(s.nodes[m.dst], m.append);
    case DeliverSnapshotCall(m) =>
      SnapshotOutGrows(s.nodes[m.dst], m.snap, Covered(s, m.snap));
    case _ =>
  }

  lemma PutHandsOut(s: Cluster, n: NodeId, x: NodeState, sent: set<Message>, ack: Option<nat>)
    requires HandedOut(s) && Present(s, n) && OutGrows(s.nodes[n], x)
    ensures HandedOut(Put(s, n, x, sent, ack))
  {
    var s' := Put(s, n, x, sent, ack);
    forall m, p | m in s'.nodes && 0 <= p < |s'.nodes[m].out| && s'.nodes[m].out[p].Command?
      ensures Delivery(m, s'.nodes[m].out[p].entry) in s'.delivered
    {
      if m == n && p >= |s.nodes[n].out| {
        assert Delivery(n, x.out[p].entry) in Delivered(n, s.nodes[n], x);
      } else {
        assert s'.nodes[m].out[p] == s.nodes[m].out[p];
      }
    }
  }

  lemma StepHandsOut(s: Cluster, step: Step)
    requires Enabled(s, step) && HandedOut(s)
    ensures HandedOut(Apply(s, step))
  {
    var o := Perform(s, step);
    PerformOutGrows(s, step);
    PutHandsOut(s, o.n, o.x, o.sent, o.ack);
  }

  lemma NextHandsOut(s: Cluster, s': Cluster)
    requires HandedOut(s) && Next(s, s')
    ensures HandedOut(s')
  {
    var step :| Enabled(s, step) && s' == Apply(s, step);
    StepHandsOut(s, step);
  }

  lemma {:induction false} RunHandsOut(run: seq<Cluster>, i: nat)
    requires IsRun(run) && i < |run|
    ensures HandedOut(run[i])
  {
    if i > 0 {
      RunHandsOut(run, i - 1);
      RunSteps(run, i - 1, run[i - 1], run[i]);
      NextHandsOut(run[i - 1], run[i]);
    }
  }

  /** What a node handed out is certified by a quorum, on every later record. */
  lemma HandedOutIsCertified(run: seq<Cluster>, i: nat, c: Core, n: NodeId, p: nat)
    requires IsRun(run) && i < |run| && n in run[i].nodes && Grows(run[i].core, c)
    requires p < |run[i].nodes[n].out| && run[i].nodes[n].out[p].Command?
    ensures Certified(c, run[i].nodes[n].out[p].entry)
  {
    RunIsGood(run, i);
    RunHandsOut(run, i);
    var e := run[i].nodes[n].out[p].entry;
    assert Delivery(n, e) in run[i].delivered;
    CertifiedCarries(run[i].core, c, e);
  }

  lemma CertifiedUnique(c: Core, e: Entry, f: Entry)
    requires Complete(c) && Certified(c, e) && Certified(c, f) && e.index == f.index
    ensures e == f
  {
    var t: nat, i: nat :| CertifiedBy(c, e, t, i);
    var u: nat, j: nat :| CertifiedBy(c, f, u, j);
    CommittedAgree(c, t, i, u, j, e.index);
  }

  lemma RunIsComplete(run: seq<Cluster>, i: nat)
    requires IsRun(run) && i < |run|
    ensures Complete(run[i].core)
  {
    RunIsGood(run, i);
    LeadersComplete(run[i].core);
  }

  /** State machine safety: no two nodes, at any two moments, hand out different entries for the same index. */
  lemma StateMachineSafety(run: seq<Cluster>, i: nat, j: nat, a: NodeId, b: NodeId, p: nat, q: nat)
    requires IsRun(run) && i < |run| && j < |run| && a in run[i].nodes && b in run[j].nodes
    requires p < |run[i].nodes[a].out| && run[i].nodes[a].out[p].Command?
    requires q < |run[j].nodes[b].out| && run[j].nodes[b].out[q].Command?
    requires run[i].nodes[a].out[p].entry.index == run[j].nodes[b].out[q].entry.index
    ensures run[i].nodes[a].out[p].entry == run[j].nodes[b].out[q].entry
  {
    LaterGrows(run, i, j);
    var c := run[Later(run, i, j)].core;
    HandedOutIsCertified(run, i, c, a, p);
    HandedOutIsCertified(run, j, c, b, q);
    RunIsComplete(run, Later(run, i, j));
    CertifiedUnique(c, run[i].nodes[a].out[p].entry, run[j].nodes[b].out[q].entry);
  }

  // ---------------------------------------------------------------- the follower's commit clamp

  lemma NextIndexOf(s: Cluster, n: NodeId, peer: NodeId)
    requires Sync(s) && NodesOk(s) && n in s.nodes && peer in s.nodes && peer != n && s.nodes[n].role == Leader
    ensures 1 <= At(s.nodes[n].nextIndex, peer) <= |s.nodes[n].log| + 1
  {
    NodeFacts(s, n);
    assert peer in s.core.servers - {n};
  }

  lemma BuiltReachesEnd(cfg: Config, x: NodeState, peer: NodeId)
    requires 1 <= At(x.nextIndex, peer) <= |x.log| + 1 && At(x.nextIndex, peer) > x.snapIndex
    ensures Reach(BuildAppend(cfg, x, peer)) == |x.log|
  {
  }

  lemma NextIndexInRun(run: seq<Cluster>, i: nat, n: NodeId, peer: NodeId)
    requires IsRun(run) && i < |run| && n in run[i].nodes && peer in run[i].nodes && peer != n
    requires run[i].nodes[n].role == Leader
    ensures 1 <= At(run[i].nodes[n].nextIndex, peer) <= |run[i].nodes[n].log| + 1
  {
    RunIsGood(run, i);
    NextIndexOf(run[i], n, peer);
  }

  /** A leader never points past the end of its log, so a request it builds carries its whole tail. */
  lemma LeaderSendsWholeTail(run: seq<Cluster>, i: nat, n: NodeId, peer: NodeId)
    requires IsRun(run) && i < |run| && n in run[i].nodes && peer in run[i].nodes && peer != n
    requires run[i].nodes[n].role == Leader
    ensures var x := run[i].nodes[n]; 1 <= At(x.nextIndex, peer) <= |x.log| + 1
    ensures var x := run[i].nodes[n];
            At(x.nextIndex, peer) > x.snapIndex ==> Reach(BuildAppend(Cfg(run[i], n), x, peer)) == |x.log|
  {
    NextIndexInRun(run, i, n, peer);
    if At(run[i].nodes[n].nextIndex, peer) > run[i].nodes[n].snapIndex {
      BuiltReachesEnd(Cfg(run[i], n), run[i].nodes[n], peer);
    }
  }

  /** The first request of a new leader, to whichever peer, asks about its last entry and carries none. */
  lemma NewLeaderProbes(cfg: Config, x: NodeState, x': NodeState, q: NodeId, req: VoteRequest, resp: VoteResponse,
                        peer: NodeId)
    requires x.role != Leader && x'.role == Leader && x.snapIndex <= |x.log| && peer in cfg.peers
    requires x' == StartElection(cfg, x) || x' == HandleVoteResponse(cfg, x, q, req, resp)
    ensures x'.log == x.log && At(x'.nextIndex, peer) > x'.snapIndex && At(x'.matchIndex, peer) == 0
    ensures var first := BuildAppend(cfg, x', peer);
            first.prevLogIndex == |x.log| && first.prevLogTerm == LastTerm(x.log) && first.entries == []
  {
  }

  /**
   What a follower has confirmed is not sent to it again, but where a late rejection has taken the next index back
   behind what it had confirmed before: then every request carries the same entries, until there are new ones.
   */
  lemma ConfirmedIsSentAgainIff(cfg: Config, y: NodeState, q: NodeId, resp: AppendResponse)
    requires y.role == Leader && y.snapIndex < At(y.nextIndex, q) <= |y.log| + 1
    requires resp.success && resp.term == y.currentTerm
    ensures var y' := HandleAppendResponse(cfg, y, q, BuildAppend(cfg, y, q), resp);
            && At(y'.matchIndex, q) >= |y.log| && At(y'.nextIndex, q) > y'.snapIndex
            && (BuildAppend(cfg, y', q).entries != []
                <==> At(y.nextIndex, q) <= |y.log| <= At(y.matchIndex, q))
            && (BuildAppend(cfg, y', q).entries != [] ==>
                  BuildAppend(cfg, y', q).entries == BuildAppend(cfg, y, q).entries)
  {
    BuiltReachesEnd(cfg, y, q);
  }

  /** The follower has all the request vouches for, commits no more than that, and only what agrees with the leader. */
  ghost predicate CommitsWithin(x: NodeState, x': NodeState, req: AppendRequest, leaderLog: seq<Entry>) {
    && req.leaderCommit <= Reach(req) <= |x'.log|
    && x'.commitIndex == Max(x.commitIndex, req.leaderCommit) && Agree(x'.log, leaderLog, Reach(req))
    && Agree(x'.log, leaderLog, x'.commitIndex) && Agree(x'.log, x.log, x.commitIndex)
  }

  lemma AbsorbClamped(x: NodeState, req: AppendRequest, leaderLog: seq<Entry>, log': seq<Entry>)
    requires log' == Splice(x.log, x.snapIndex, req.prevLogIndex, req.entries)
    requires Spliced(x.log, leaderLog, Reach(req), log') && Agree(log', leaderLog, Reach(req))
    requires Agree(x.log, leaderLog, x.commitIndex) && req.leaderCommit <= Reach(req)
    ensures CommitsWithin(x, AbsorbEntries(Following(x, req.leaderId), req), req, leaderLog)
  {
    SpliceKeepsAgreement(x.log, leaderLog, Reach(req), log', x.log, x.commitIndex);
    AbsorbTakesOver(x, req, log');
  }

  lemma ClampInTerm(s: Cluster, m: Message)
    requires Calm(s) && Settled(s) && MsgOk(s.core, m) && m.AppendCall? && m.append.term <= s.nodes[m.dst].currentTerm
    requires HandleAppendEntries(s.nodes[m.dst], m.append).1.success
    ensures CommitsWithin(s.nodes[m.dst], HandleAppendEntries(s.nodes[m.dst], m.append).0, m.append,
                          s.core.termLog[m.append.term])
  {
    var x := s.nodes[m.dst];
    NodeFacts(s, m.dst);
    AppendCases(x, m.append);
    CommittedWithLeader(s, m.dst);
    SpliceAcceptable(s.core, m.dst, x, m.src, m.append);
    AbsorbClamped(x, m.append, s.core.termLog[m.append.term],
                  Splice(x.log, x.snapIndex, m.append.prevLogIndex, m.append.entries));
  }

  lemma RaisedReady(s: Cluster, m: Message)
    requires Good(s) && MsgOk(s.core, m) && m.AppendCall? && m.append.term > s.nodes[m.dst].currentTerm
    ensures Present(s, m.dst)
    ensures var s1 := Raised(s, m.dst, m.append.term);
            && Calm(s1) && Settled(s1) && MsgOk(s1.core, m) && s1.core.termLog == s.core.termLog
            && s1.nodes[m.dst] == BecomeFollower(s.nodes[m.dst], m.append.term)
  {
    RaisedGood(s, m.dst, m.append.term);
    var s1 := Raised(s, m.dst, m.append.term);
    GoodParts(s1);
    MsgCarries(s.core, s1.core, m);
  }

  lemma ClampInLaterTerm(s: Cluster, m: Message)
    requires Good(s) && MsgOk(s.core, m) && m.AppendCall? && m.append.term > s.nodes[m.dst].currentTerm
    requires HandleAppendEntries(s.nodes[m.dst], m.append).1.success
    ensures CommitsWithin(s.nodes[m.dst], HandleAppendEntries(s.nodes[m.dst], m.append).0, m.append,
                          s.core.termLog[m.append.term])
  {
    AppendRaises(s.nodes[m.dst], m.append);
    RaisedReady(s, m);
    ClampInTerm(Raised(s, m.dst, m.append.term), m);
  }

  lemma ClampIsSafe(s: Cluster, m: Message)
    requires Good(s) && m in s.net && m.AppendCall? && m.dst in s.nodes
    requires HandleAppendEntries(s.nodes[m.dst], m.append).1.success
    ensures m.append.term in s.core.termLog
    ensures CommitsWithin(s.nodes[m.dst], HandleAppendEntries(s.nodes[m.dst], m.append).0, m.append,
                          s.core.termLog[m.append.term])
  {
    assert MsgOk(s.core, m);
    if m.append.term > s.nodes[m.dst].currentTerm {
      ClampInLaterTerm(s, m);
    } else {
      GoodParts(s);
      ClampInTerm(s, m);
    }
  }

  /**
   Clamping by the follower's own last index is harmless: whatever request arrives, whenever, the follower
   commits exactly what the request vouches for, and it agrees with the leader of that term.
   */
  lemma CommitClampIsSafe(run: seq<Cluster>, i: nat, m: Message)
    requires IsRun(run) && i < |run| && m in run[i].net && m.AppendCall? && m.dst in run[i].nodes
    requires HandleAppendEntries(run[i].nodes[m.dst], m.append).1.success
    ensures m.append.term in run[i].core.termLog
    ensures CommitsWithin(run[i].nodes[m.dst], HandleAppendEntries(run[i].nodes[m.dst], m.append).0, m.append,
                          run[i].core.termLog[m.append.term])
  {
    RunIsGood(run, i);
    ClampIsSafe(run[i], m);
  }
}
