/** One node moves: what must be shown about that node, and why the rest of the cluster stays in order. */
module RaftMoves {

  import opened Wrappers
  import opened RaftTypes
  import opened RaftCore
  import opened RaftCoreProofs
  import opened RaftCluster
  import opened RaftInvariant

  // ---------------------------------------------------------------- facts that growth carries along

  lemma SnapFactCarries(c: Core, c': Core, index: nat, term: nat, bound: nat, bound': nat)
    requires Grows(c, c') && SnapFact(c, index, term, bound) && bound <= bound'
    ensures SnapFact(c', index, term, bound')
  {
    var t: nat, i: nat :| t <= bound && SnapFactBy(c, index, term, t, i);
    CommittedGrows(c, c', t, i);
    assert SnapFactBy(c', index, term, t, i);
  }

  lemma CertifiedCarries(c: Core, c': Core, e: Entry)
    requires Grows(c, c') && Certified(c, e)
    ensures Certified(c', e)
  {
    var t: nat, i: nat :| CertifiedBy(c, e, t, i);
    CommittedGrows(c, c', t, i);
    assert CertifiedBy(c', e, t, i);
  }

  lemma AppendCarries(c: Core, c': Core, leader: NodeId, req: AppendRequest)
    requires Grows(c, c') && AppendOk(c, leader, req)
    ensures AppendOk(c', leader, req)
  {
    CommittedUpToGrows(c, c', c.termLog[req.term], c'.termLog[req.term], req.leaderCommit, req.term, req.term);
  }

  lemma SnapshotCarries(c: Core, c': Core, leader: NodeId, req: SnapshotRequest)
    requires Grows(c, c') && SnapshotOk(c, leader, req)
    ensures SnapshotOk(c', leader, req)
  {
    CommittedUpToGrows(c, c', c.termLog[req.term], c'.termLog[req.term], req.lastIncludedIndex, req.term, req.term);
  }

  lemma MsgCarries(c: Core, c': Core, m: Message)
    requires Grows(c, c') && MsgOk(c, m)
    ensures MsgOk(c', m)
  {
    match m
    case VoteCall(_, _, _) =>
    case VoteReply(_, _, _, _) =>
    case AppendCall(src, _, req) => AppendCarries(c, c', src, req);
    case AppendReply(_, dst, req, _) => AppendCarries(c, c', dst, req);
    case SnapshotCall(src, _, req) => SnapshotCarries(c, c', src, req);
    case SnapshotReply(_, dst, req, _) => SnapshotCarries(c, c', dst, req);
  }

  /** Another node's record does not disturb this one. */
  lemma BystanderOk(c: Core, c': Core, n: NodeId, t: nat, m: NodeId, x: NodeState)
    requires Grows(c, c') && OnlyAbout(c, c', n, t) && m != n && NodeOk(c, m, x)
    ensures NodeOk(c', m, x)
  {
    if x.transfer.Receiving? {
      SnapFactCarries(c, c', x.transfer.index, x.transfer.term, x.currentTerm, x.currentTerm);
    }
    assert Slot(m, x.currentTerm) != Slot(n, t);
  }

  // ---------------------------------------------------------------- a move

  /** A node becomes a candidate only in a term that is new to it, and its log rests while it is one. */
  ghost predicate CandidacyOk(x: NodeState, x': NodeState) {
    x'.role == Candidate ==>
      x.currentTerm < x'.currentTerm || (x.role == Candidate && x.currentTerm == x'.currentTerm && x.log == x'.log)
  }

  ghost predicate VoteFair(s: Cluster, n: NodeId, x': NodeState)
    requires n in s.nodes
  {
    x'.votedFor != NO_NODE && Slot(n, x'.currentTerm) !in s.core.ballots ==>
      && x'.votedFor in s.nodes
      && BallotOk(x'.currentTerm, Ballot(x'.votedFor, s.nodes[n].log),
                  if x'.votedFor == n then x' else s.nodes[x'.votedFor])
  }

  ghost predicate SentOk(c': Core, n: NodeId, x': NodeState, sent: set<Message>) {
    forall m :: m in sent ==> MsgOk(c', m) && (m.VoteCall? ==> m.src == n && CallOk(m.vote, x'))
  }

  lemma SentOne(c': Core, n: NodeId, x': NodeState, m: Message)
    requires MsgOk(c', m) && !m.VoteCall?
    ensures SentOk(c', n, x', {m})
  {
  }

  ghost predicate MoveOk(s: Cluster, n: NodeId, x': NodeState, sent: set<Message>, ack: Option<nat>) {
    && Present(s, n) && Recordable(s.core, n, x', ack)
    && NodeOk(Record(s.core, n, x', ack), n, x')
    && SentOk(Record(s.core, n, x', ack), n, x', sent)
    && CandidacyOk(s.nodes[n], x') && VoteFair(s, n, x')
    && forall d :: d in Delivered(n, s.nodes[n], x') ==> Certified(Record(s.core, n, x', ack), d.entry)
  }

  lemma MoveKeepsNodes(s: Cluster, s': Cluster, n: NodeId, x': NodeState)
    requires NodesOk(s) && s'.nodes == s.nodes[n := x']
    requires NodeOk(s'.core, n, x') && Grows(s.core, s'.core) && OnlyAbout(s.core, s'.core, n, x'.currentTerm)
    ensures NodesOk(s')
  {
    forall m | m in s'.nodes ensures NodeOk(s'.core, m, s'.nodes[m]) {
      if m != n {
        BystanderOk(s.core, s'.core, n, x'.currentTerm, m, s.nodes[m]);
      }
    }
  }

  lemma MoveKeepsMsgs(s: Cluster, n: NodeId, x': NodeState, sent: set<Message>, ack: Option<nat>)
    requires MsgsOk(s) && MoveOk(s, n, x', sent, ack) && Grows(s.core, Record(s.core, n, x', ack))
    ensures MsgsOk(Put(s, n, x', sent, ack))
  {
    var c' := Record(s.core, n, x', ack);
    forall m | m in s.net ensures MsgOk(c', m) {
      MsgCarries(s.core, c', m);
    }
  }

  lemma MoveKeepsCalls(s: Cluster, n: NodeId, x': NodeState, sent: set<Message>, ack: Option<nat>)
    requires Sync(s) && CallsOk(s) && MoveOk(s, n, x', sent, ack)
    ensures CallsOk(Put(s, n, x', sent, ack))
  {
    var s' := Put(s, n, x', sent, ack);
    assert s.nodes[n].currentTerm <= x'.currentTerm;
    forall m | m in s'.net && m.VoteCall? && m.src in s'.nodes ensures CallOk(m.vote, s'.nodes[m.src]) {
      if m in s.net {
        assert CallOk(m.vote, s.nodes[m.src]);
      }
    }
  }

  lemma MoveKeepsBallots(s: Cluster, s': Cluster, n: NodeId, x': NodeState)
    requires Sync(s) && BallotsFair(s) && n in s.nodes && s'.nodes == s.nodes[n := x'] && Grows(s.core, s'.core)
    requires BallotNew(s.core, s'.core, n, x', s.nodes[n].log)
    requires VoterOk(s'.core, n, x') && CandidacyOk(s.nodes[n], x') && VoteFair(s, n, x')
    requires s.nodes[n].currentTerm <= x'.currentTerm
    ensures BallotsFair(s')
  {
    forall sl | sl in s'.core.ballots
      ensures s'.core.ballots[sl].candidate in s'.nodes
      ensures BallotOk(sl.term, s'.core.ballots[sl], s'.nodes[s'.core.ballots[sl].candidate])
    {
      if sl in s.core.ballots {
        assert BallotOk(sl.term, s.core.ballots[sl], s.nodes[s.core.ballots[sl].candidate]);
      }
    }
  }

  lemma MoveKeepsDelivered(s: Cluster, n: NodeId, x': NodeState, sent: set<Message>, ack: Option<nat>)
    requires DeliveredOk(s) && MoveOk(s, n, x', sent, ack) && Grows(s.core, Record(s.core, n, x', ack))
    ensures DeliveredOk(Put(s, n, x', sent, ack))
  {
    var s' := Put(s, n, x', sent, ack);
    forall d | d in s'.delivered ensures Certified(s'.core, d.entry) {
      if d in s.delivered {
        CertifiedCarries(s.core, s'.core, d.entry);
      }
    }
  }

  lemma MoveKeepsSync(s: Cluster, s': Cluster, n: NodeId, x': NodeState)
    requires Sync(s) && n in s.nodes && s'.nodes == s.nodes[n := x'] && s'.core.servers == s.core.servers
    requires s'.core.peers == s.core.peers[n := Peer(x'.currentTerm, x'.log, x'.commitIndex)]
    ensures Sync(s')
  {
  }

  /** The invariant holds on, and nothing recorded is taken back. */
  ghost predicate Advances(s: Cluster, s': Cluster) { Good(s') && Grows(s.core, s'.core) }

  /** If the moving node is in order, the whole cluster is. */
  lemma MoveKeeps(s: Cluster, n: NodeId, x': NodeState, sent: set<Message>, ack: Option<nat>)
    requires Good(s) && MoveOk(s, n, x', sent, ack)
    ensures Advances(s, Put(s, n, x', sent, ack))
  {
    RecordKeeps(s.core, n, x', ack);
    RecordOnlyAbout(s.core, n, x', ack);
    RecordMirrors(s.core, n, x', ack);
    MoveKeepsSync(s, Put(s, n, x', sent, ack), n, x');
    MoveKeepsNodes(s, Put(s, n, x', sent, ack), n, x');
    MoveKeepsMsgs(s, n, x', sent, ack);
    MoveKeepsCalls(s, n, x', sent, ack);
    MoveKeepsBallots(s, Put(s, n, x', sent, ack), n, x');
    MoveKeepsDelivered(s, n, x', sent, ack);
  }
}
