/** Every step of the cluster is a move that keeps the invariant: terms, votes and elections. */
module RaftElectionSteps {

  import opened Wrappers
  import opened RaftTypes
  import opened RaftSpec
  import opened RaftCore
  import opened RaftCoreProofs
  import opened RaftCluster
  import opened RaftInvariant
  import opened RaftMoves

  /** The part of the invariant that the voting steps rest on. */
  ghost predicate Calm(s: Cluster) {
    && Sync(s) && NodesOk(s) && BallotsFair(s)
    && Shape(s.core) && BallotsOk(s.core) && ElectionsOk(s.core) && AcksOk(s.core)
  }

  /** Nothing the record cares about changed. */
  ghost predicate Quiet(x: NodeState, x': NodeState) {
    && x'.currentTerm == x.currentTerm && x'.votedFor == x.votedFor && x'.log == x.log
    && x'.commitIndex == x.commitIndex && (x'.role == Leader ==> x.role == Leader)
  }

  lemma QuietRecord(c: Core, n: NodeId, x: NodeState, x': NodeState)
    requires n in c.peers && c.peers[n] == Peer(x.currentTerm, x.log, x.commitIndex)
    requires VoterOk(c, n, x) && LeaderOk(c, n, x) && Quiet(x, x')
    ensures Recordable(c, n, x', None) && Record(c, n, x', None) == c
  {
    assert Voted(c, n, x') == c;
  }

  /** The node moved to a later term and nothing else happened. */
  ghost predicate Stepped(x: NodeState, x': NodeState) {
    && x.currentTerm < x'.currentTerm && x'.votedFor == NO_NODE && x'.log == x.log
    && x'.commitIndex == x.commitIndex && x'.role == Follower
  }

  lemma SteppedRecord(c: Core, n: NodeId, x: NodeState, x': NodeState)
    requires n in c.peers && c.peers[n] == Peer(x.currentTerm, x.log, x.commitIndex) && Stepped(x, x')
    ensures Recordable(c, n, x', None) && Record(c, n, x', None) == Bump(c, n, x'.currentTerm)
  {
    assert Voted(c, n, x') == Bump(c, n, x'.currentTerm);
  }

  /** Facts about one node of a cluster in order. */
  lemma NodeFacts(s: Cluster, n: NodeId)
    requires Sync(s) && NodesOk(s) && n in s.nodes
    ensures Present(s, n) && NodeOk(s.core, n, s.nodes[n])
    ensures s.core.peers[n] == Peer(s.nodes[n].currentTerm, s.nodes[n].log, s.nodes[n].commitIndex)
    ensures Cfg(s, n).peers == s.core.servers - {n} && Cfg(s, n).Quorum() == |s.core.servers| / 2 + 1
  {
  }

  /** Stepping down, to the same or a later term, keeps a node in order. */
  lemma SteppedDownOk(c: Core, n: NodeId, x: NodeState, x': NodeState, t: nat)
    requires BallotsOk(c) && n in c.peers && c.peers[n] == Peer(x.currentTerm, x.log, x.commitIndex)
    requires NodeOk(c, n, x) && x' == BecomeFollower(x, t)
    ensures Recordable(c, n, x', None) && NodeOk(Record(c, n, x', None), n, x')
    ensures Record(c, n, x', None) == if t > x.currentTerm then Bump(c, n, t) else c
  {
    if t > x.currentTerm {
      SteppedRecord(c, n, x, x');
      if x.transfer.Receiving? {
        BumpGrows(c, n, t);
        SnapFactCarries(c, Bump(c, n, t), x.transfer.index, x.transfer.term, x.currentTerm, t);
      }
    } else {
      QuietRecord(c, n, x, x');
    }
  }

  lemma BumpGrows(c: Core, n: NodeId, t: nat)
    requires CanBump(c, n, t)
    ensures Grows(c, Bump(c, n, t))
  {
  }

  lemma StepDownMove(s: Cluster, n: NodeId, t: nat, sent: set<Message>)
    requires Calm(s) && n in s.nodes
    requires var x' := BecomeFollower(s.nodes[n], t);
             SentOk(if t > s.nodes[n].currentTerm then Bump(s.core, n, t) else s.core, n, x', sent)
    ensures MoveOk(s, n, BecomeFollower(s.nodes[n], t), sent, None)
    ensures t > s.nodes[n].currentTerm ==> Record(s.core, n, BecomeFollower(s.nodes[n], t), None) == Bump(s.core, n, t)
  {
    NodeFacts(s, n);
    var x := s.nodes[n];
    var x' := BecomeFollower(x, t);
    SteppedDownOk(s.core, n, x, x', t);
    assert Delivered(n, x, x') == {};
  }

  lemma StepDownSilently(s: Cluster, n: NodeId, t: nat)
    requires Calm(s) && n in s.nodes
    ensures MoveOk(s, n, BecomeFollower(s.nodes[n], t), {}, None)
  {
    StepDownMove(s, n, t, {});
  }

  // ---------------------------------------------------------------- winning

  /** A candidate that may be elected is in order as a leader. */
  lemma BecomeLeaderOk(c: Core, n: NodeId, x: NodeState, cfg: Config)
    requires n in c.peers && c.peers[n] == Peer(x.currentTerm, x.log, x.commitIndex)
    requires NodeOk(c, n, x) && cfg == Config(n, c.servers - {n})
    requires x.currentTerm !in c.elections && Grows(c, Elect(c, n, x.votes))
    ensures NodeOk(Elect(c, n, x.votes), n, BecomeLeader(cfg, x))
  {
    if x.transfer.Receiving? {
      SnapFactCarries(c, Elect(c, n, x.votes), x.transfer.index, x.transfer.term, x.currentTerm, x.currentTerm);
    }
  }

  /** The votes a candidate counted are ballots that found it up to date. */
  lemma CountedVotesElect(s: Cluster, n: NodeId, votes: set<NodeId>)
    requires Sync(s) && BallotsFair(s) && n in s.nodes && s.nodes[n].role == Candidate
    requires CandidateOk(s.core, n, s.nodes[n].(votes := votes)) && IsQuorum(s.core.servers, votes)
    ensures CanElect(s.core, n, votes)
  {
    var x := s.nodes[n];
    forall v | v in votes
      ensures UpToDate(|x.log|, LastTerm(x.log), s.core.ballots[Slot(v, x.currentTerm)].log)
    {
      assert BallotOk(x.currentTerm, s.core.ballots[Slot(v, x.currentTerm)], x);
    }
  }

  function Counted(cfg: Config, x: NodeState, votes: set<NodeId>): NodeState {
    var x1 := x.(votes := votes);
    if |votes| >= cfg.Quorum() then BecomeLeader(cfg, x1) else x1
  }

  lemma VoteResponseCases(cfg: Config, x: NodeState, peer: NodeId, req: VoteRequest, resp: VoteResponse)
    ensures HandleVoteResponse(cfg, x, peer, req, resp) ==
            if resp.term > x.currentTerm then BecomeFollower(x, resp.term)
            else if resp.voteGranted && x.role == Candidate && x.currentTerm == req.term
            then Counted(cfg, x, x.votes + {peer})
            else x
  {
  }

  lemma VoteReplyMove(s: Cluster, m: Message)
    requires Calm(s) && MsgOk(s.core, m) && m.VoteReply?
    ensures MoveOk(s, m.dst, HandleVoteResponse(Cfg(s, m.dst), s.nodes[m.dst], m.src, m.vote, m.voteResp), {}, None)
  {
    var n := m.dst;
    var x := s.nodes[n];
    VoteResponseCases(Cfg(s, n), x, m.src, m.vote, m.voteResp);
    if m.voteResp.term > x.currentTerm {
      StepDownSilently(s, n, m.voteResp.term);
    } else if m.voteResp.voteGranted && x.role == Candidate && x.currentTerm == m.vote.term {
      CountVoteMove(s, n, m.src);
    } else {
      IdleMove(s, n);
    }
  }

  lemma IdleMove(s: Cluster, n: NodeId)
    requires Calm(s) && n in s.nodes
    ensures MoveOk(s, n, s.nodes[n], {}, None)
  {
    NodeFacts(s, n);
    QuietMove(s, n, s.nodes[n], {});
  }

  lemma OneMoreVote(c: Core, n: NodeId, x: NodeState, v: NodeId)
    requires CandidateOk(c, n, x) && v in c.servers
    requires Slot(v, x.currentTerm) in c.ballots && c.ballots[Slot(v, x.currentTerm)].candidate == n
    ensures CandidateOk(c, n, x.(votes := x.votes + {v}))
  {
  }

  lemma CountVoteMove(s: Cluster, n: NodeId, v: NodeId)
    requires Calm(s) && n in s.nodes && s.nodes[n].role == Candidate && v in s.core.servers
    requires var sl := Slot(v, s.nodes[n].currentTerm); sl in s.core.ballots && s.core.ballots[sl].candidate == n
    ensures MoveOk(s, n, Counted(Cfg(s, n), s.nodes[n], s.nodes[n].votes + {v}), {}, None)
  {
    NodeFacts(s, n);
    OneMoreVote(s.core, n, s.nodes[n], v);
    var votes := s.nodes[n].votes + {v};
    var x1 := s.nodes[n].(votes := votes);
    if |votes| >= Cfg(s, n).Quorum() {
      CountedVotesElect(s, n, votes);
      WinMove(s, n, x1);
    } else {
      QuietMove(s, n, x1, {});
    }
  }

  lemma QuietMove(s: Cluster, n: NodeId, x': NodeState, sent: set<Message>)
    requires Calm(s) && n in s.nodes && Quiet(s.nodes[n], x') && x'.out == s.nodes[n].out
    requires NodeOk(s.core, n, x') && SentOk(s.core, n, x', sent)
    requires x'.role == Candidate ==> s.nodes[n].role == Candidate
    ensures MoveOk(s, n, x', sent, None)
  {
    NodeFacts(s, n);
    QuietRecord(s.core, n, s.nodes[n], x');
    assert Delivered(n, s.nodes[n], x') == {};
  }

  lemma WinRecord(c: Core, n: NodeId, x: NodeState, x': NodeState)
    requires n in c.peers && c.peers[n] == Peer(x.currentTerm, x.log, x.commitIndex)
    requires VoterOk(c, n, x) && x.currentTerm !in c.elections && CanElect(c, n, x'.votes)
    requires x'.role == Leader && x'.currentTerm == x.currentTerm && x'.votedFor == x.votedFor
    requires x'.log == x.log && x'.commitIndex == x.commitIndex
    ensures Recordable(c, n, x', None) && Record(c, n, x', None) == Elect(c, n, x'.votes)
  {
    assert Voted(c, n, x') == c;
  }

  lemma WinMove(s: Cluster, n: NodeId, x1: NodeState)
    requires Calm(s) && n in s.nodes && CanElect(s.core, n, x1.votes)
    requires x1 == s.nodes[n].(votes := x1.votes)
    requires CandidateOk(s.core, n, x1)
    ensures MoveOk(s, n, BecomeLeader(Cfg(s, n), x1), {}, None)
  {
    NodeFacts(s, n);
    var x' := BecomeLeader(Cfg(s, n), x1);
    ElectionIsFirst(s.core, n, x1.votes);
    ElectGrows(s.core, n, x1.votes);
    WinRecord(s.core, n, x1, x');
    BecomeLeaderOk(s.core, n, x1, Cfg(s, n));
    assert Delivered(n, s.nodes[n], x') == {};
  }

  // ---------------------------------------------------------------- standing for election

  function Stood(c: Core, n: NodeId): Core
    requires n in c.peers
  {
    CastVote(Bump(c, n, c.peers[n].term + 1), n, n)
  }

  lemma StoodGrows(c: Core, n: NodeId)
    requires BallotsOk(c) && n in c.peers
    ensures Grows(c, Stood(c, n))
  {
    var c1 := Bump(c, n, c.peers[n].term + 1);
    BumpGrows(c, n, c.peers[n].term + 1);
    CastVoteGrowth(c1, n, n);
    GrowsTransitive(c, c1, Stood(c, n));
  }

  lemma CastVoteGrowth(c: Core, n: NodeId, cand: NodeId)
    requires CanCastVote(c, n)
    ensures Grows(c, CastVote(c, n, cand))
  {
  }

  lemma StoodVoted(c: Core, n: NodeId, x': NodeState)
    requires BallotsOk(c) && n in c.peers && x'.currentTerm == c.peers[n].term + 1 && x'.votedFor == n != NO_NODE
    ensures Voted(c, n, x') == Stood(c, n)
  {
    assert RecordTerm(c, n, x') == Bump(c, n, x'.currentTerm);
  }

  /** The next term is not one this node has led already. */
  lemma NextTermNotLed(c: Core, n: NodeId)
    requires ElectionsOk(c) && n in c.peers
    ensures c.peers[n].term + 1 in c.elections ==> c.elections[c.peers[n].term + 1].leader != n
  {
    if c.peers[n].term + 1 in c.elections {
      assert ElectionOk(c, c.peers[n].term + 1);
    }
  }

  lemma LeadersAreServers(c: Core, t: nat)
    requires Shape(c) && ElectionsOk(c)
    ensures t in c.elections ==> c.elections[t].leader in c.servers
  {
    if t in c.elections {
      assert ElectionOk(c, t);
    }
  }

  lemma StoodOk(c: Core, n: NodeId, x: NodeState, cfg: Config)
    requires n in c.peers && n in c.servers && c.peers[n] == Peer(x.currentTerm, x.log, x.commitIndex) && n != NO_NODE
    requires NodeOk(c, n, x) && cfg == Config(n, c.servers - {n})
    requires Grows(c, Stood(c, n))
    requires x.currentTerm + 1 in c.elections ==> c.elections[x.currentTerm + 1].leader != n
    ensures NodeOk(Stood(c, n), n, Standing(cfg, x))
  {
    if x.transfer.Receiving? {
      SnapFactCarries(c, Stood(c, n), x.transfer.index, x.transfer.term, x.currentTerm, x.currentTerm + 1);
    }
  }

  lemma SingleServer(servers: set<NodeId>, n: NodeId)
    requires n in servers && 1 >= |servers| / 2 + 1
    ensures servers == {n}
  {
    assert |servers - {n}| == 0;
  }

  lemma StandRecord(c: Core, n: NodeId, x': NodeState)
    requires BallotsOk(c) && n in c.peers && x'.currentTerm == c.peers[n].term + 1 && x'.votedFor == n != NO_NODE
    requires x'.role == Candidate && x'.log == c.peers[n].log && x'.commitIndex == c.peers[n].commit
    ensures Recordable(c, n, x', None) && Record(c, n, x', None) == Stood(c, n)
  {
    StoodVoted(c, n, x');
    assert Installed(c, n, x') == Stood(c, n);
  }

  lemma StandSent(c: Core, cfg: Config, x: NodeState, calls: set<Message>)
    requires cfg.id in c.servers && cfg.peers == c.servers - {cfg.id}
    requires calls == set p | p in cfg.peers :: VoteCall(cfg.id, p, BuildVoteRequest(cfg, x))
    ensures SentOk(c, cfg.id, x, calls)
  {
  }

  lemma StandFacts(s: Cluster, n: NodeId)
    requires Calm(s) && n in s.nodes
    ensures var x1 := Standing(Cfg(s, n), s.nodes[n]);
            && Present(s, n) && n in s.core.servers && Cfg(s, n).peers == s.core.servers - {n}
            && Recordable(s.core, n, x1, None) && Record(s.core, n, x1, None) == Stood(s.core, n)
            && NodeOk(Stood(s.core, n), n, x1)
  {
    NodeFacts(s, n);
    StandNodeOk(s.core, n, s.nodes[n], Cfg(s, n));
    StandRecord(s.core, n, Standing(Cfg(s, n), s.nodes[n]));
  }

  lemma StandNodeOk(c: Core, n: NodeId, x: NodeState, cfg: Config)
    requires BallotsOk(c) && ElectionsOk(c) && n in c.peers && n in c.servers && n != NO_NODE
    requires c.peers[n] == Peer(x.currentTerm, x.log, x.commitIndex) && NodeOk(c, n, x)
    requires cfg == Config(n, c.servers - {n})
    ensures NodeOk(Stood(c, n), n, Standing(cfg, x))
  {
    StoodGrows(c, n);
    NextTermNotLed(c, n);
    StoodOk(c, n, x, cfg);
  }

  lemma StandMove(s: Cluster, n: NodeId, calls: set<Message>)
    requires Calm(s) && n in s.nodes
    requires var cfg := Cfg(s, n);
             calls == set p | p in cfg.peers :: VoteCall(n, p, BuildVoteRequest(cfg, Standing(cfg, s.nodes[n])))
    ensures MoveOk(s, n, Standing(Cfg(s, n), s.nodes[n]), calls, None)
  {
    var x1 := Standing(Cfg(s, n), s.nodes[n]);
    StandFacts(s, n);
    StandSent(Stood(s.core, n), Cfg(s, n), x1, calls);
    assert Delivered(n, s.nodes[n], x1) == {};
  }

  /** In a cluster of one, the candidate's own vote is a quorum. */
  lemma AloneCanElect(c: Core, n: NodeId)
    requires Shape(c) && ElectionsOk(c) && c.servers == {n} && n in c.peers
    ensures var c2 := Stood(c, n); c2.peers[n].term !in c2.elections && CanElect(c2, n, {n})
  {
    LeadersAreServers(c, c.peers[n].term + 1);
    NextTermNotLed(c, n);
  }

  lemma AloneElects(c: Core, n: NodeId)
    requires Shape(c) && BallotsOk(c) && ElectionsOk(c) && AcksOk(c) && c.servers == {n} && n in c.peers
    ensures var c2 := Stood(c, n);
            c2.peers[n].term !in c2.elections && CanElect(c2, n, {n}) && Grows(c2, Elect(c2, n, {n}))
  {
    AloneCanElect(c, n);
    StoodShape(c, n);
    ElectGrows(Stood(c, n), n, {n});
  }

  lemma StoodShape(c: Core, n: NodeId)
    requires Shape(c) && AcksOk(c) && n in c.peers
    ensures Shape(Stood(c, n)) && AcksOk(Stood(c, n)) && n in Stood(c, n).peers
  {
  }

  lemma AloneRecorded(c: Core, n: NodeId, x': NodeState)
    requires n in c.peers && x'.currentTerm == c.peers[n].term + 1 && x'.votes == {n} && x'.role == Leader
    requires x'.log == c.peers[n].log && x'.commitIndex == c.peers[n].commit
    requires Voted(c, n, x') == Stood(c, n)
    requires var c2 := Stood(c, n); c2.peers[n].term !in c2.elections && CanElect(c2, n, {n})
    ensures Recordable(c, n, x', None) && Record(c, n, x', None) == Elect(Stood(c, n), n, {n})
  {
    assert Installed(c, n, x') == Elect(Stood(c, n), n, {n});
  }

  lemma AloneRecord(c: Core, n: NodeId, x': NodeState)
    requires Shape(c) && BallotsOk(c) && ElectionsOk(c) && AcksOk(c) && c.servers == {n} && n in c.peers
    requires x'.currentTerm == c.peers[n].term + 1 && x'.votedFor == n != NO_NODE && x'.votes == {n}
    requires x'.role == Leader && x'.log == c.peers[n].log && x'.commitIndex == c.peers[n].commit
    ensures var c2 := Stood(c, n);
            && c2.peers[n].term !in c2.elections && Grows(c2, Elect(c2, n, {n}))
            && Recordable(c, n, x', None) && Record(c, n, x', None) == Elect(c2, n, {n})
  {
    StoodVoted(c, n, x');
    AloneElects(c, n);
    AloneRecorded(c, n, x');
  }

  lemma AloneMove(s: Cluster, n: NodeId)
    requires Calm(s) && n in s.nodes && s.core.servers == {n}
    ensures MoveOk(s, n, BecomeLeader(Cfg(s, n), Standing(Cfg(s, n), s.nodes[n])), {}, None)
  {
    NodeFacts(s, n);
    var x := s.nodes[n];
    var cfg := Cfg(s, n);
    var x1 := Standing(cfg, x);
    var x' := BecomeLeader(cfg, x1);
    StoodGrows(s.core, n);
    NextTermNotLed(s.core, n);
    StoodOk(s.core, n, x, cfg);
    AloneRecord(s.core, n, x');
    BecomeLeaderOk(Stood(s.core, n), n, x1, cfg);
    assert Delivered(n, x, x') == {};
  }

  // ---------------------------------------------------------------- hearing of a later term

  lemma RecordAfterBump(c: Core, n: NodeId, x': NodeState, ack: Option<nat>)
    requires CanBump(c, n, x'.currentTerm)
    ensures Record(Bump(c, n, x'.currentTerm), n, x', ack) == Record(c, n, x', ack)
  {
    assert RecordTerm(Bump(c, n, x'.currentTerm), n, x') == Bump(c, n, x'.currentTerm);
    assert RecordTerm(c, n, x') == Bump(c, n, x'.currentTerm);
  }

  function Raised(s: Cluster, n: NodeId, t: nat): Cluster
    requires Present(s, n)
  {
    Put(s, n, BecomeFollower(s.nodes[n], t), {}, None)
  }

  /** Stepping up to a later term first, and handling the message then, comes to the same. */
  lemma RaisedGood(s: Cluster, n: NodeId, t: nat)
    requires Good(s) && n in s.nodes && s.nodes[n].currentTerm < t
    ensures Present(s, n) && Good(Raised(s, n, t)) && Grows(s.core, Raised(s, n, t).core)
    ensures Raised(s, n, t).nodes == s.nodes[n := BecomeFollower(s.nodes[n], t)]
    ensures Raised(s, n, t).core == Bump(s.core, n, t)
  {
    StepDownMove(s, n, t, {});
    MoveKeeps(s, n, BecomeFollower(s.nodes[n], t), {}, None);
  }

  lemma RaisedPut(s: Cluster, n: NodeId, t: nat, x': NodeState, sent: set<Message>, ack: Option<nat>)
    requires Present(s, n) && CanBump(s.core, n, t) && x'.currentTerm == t && s.nodes[n].currentTerm < t
    requires Raised(s, n, t).core == Bump(s.core, n, t)
    ensures Put(Raised(s, n, t), n, x', sent, ack) == Put(s, n, x', sent, ack)
  {
    RecordAfterBump(s.core, n, x', ack);
    var x1 := BecomeFollower(s.nodes[n], t);
    assert x1.out == s.nodes[n].out;
    assert Delivered(n, s.nodes[n], x1) == {};
    assert s.nodes[n := x1][n := x'] == s.nodes[n := x'];
    assert s.net + {} + sent == s.net + sent;
  }

  // ---------------------------------------------------------------- being asked for a vote

  /** What granting a vote adds to the record. */
  lemma GrantOk(c: Core, n: NodeId, x: NodeState, cand: NodeId)
    requires BallotsOk(c) && n in c.peers && c.peers[n] == Peer(x.currentTerm, x.log, x.commitIndex)
    requires NodeOk(c, n, x) && x.votedFor == NO_NODE && cand != NO_NODE
    ensures var x' := SaveHardState(x.(votedFor := cand));
            && Recordable(c, n, x', None) && Record(c, n, x', None) == CastVote(c, n, cand)
            && NodeOk(CastVote(c, n, cand), n, x')
  {
    var x' := SaveHardState(x.(votedFor := cand));
    assert Voted(c, n, x') == CastVote(c, n, cand);
    assert Installed(c, n, x') == CastVote(c, n, cand);
    if x.transfer.Receiving? {
      CastVoteGrowth(c, n, cand);
      SnapFactCarries(c, CastVote(c, n, cand), x.transfer.index, x.transfer.term, x.currentTerm, x.currentTerm);
    }
  }

  ghost predicate Declined(m: Message, r: Message) {
    m.VoteCall? && r.VoteReply? && r.src == m.dst && r.dst == m.src && r.vote == m.vote && !r.voteResp.voteGranted
  }

  lemma DeclineMove(s: Cluster, m: Message, r: Message)
    requires Calm(s) && MsgOk(s.core, m) && Declined(m, r)
    ensures MoveOk(s, m.dst, s.nodes[m.dst], {r}, None)
  {
    NodeFacts(s, m.dst);
    SentOne(s.core, m.dst, s.nodes[m.dst], r);
    QuietMove(s, m.dst, s.nodes[m.dst], {r});
  }

  lemma GrantMove(s: Cluster, m: Message)
    requires Calm(s) && MsgOk(s.core, m) && m.VoteCall? && CallOk(m.vote, s.nodes[m.src])
    requires var x := s.nodes[m.dst];
             && m.vote.term == x.currentTerm && x.votedFor == NO_NODE
             && UpToDate(m.vote.lastLogIndex, m.vote.lastLogTerm, x.log)
    ensures var x' := SaveHardState(s.nodes[m.dst].(votedFor := m.vote.candidateId));
            MoveOk(s, m.dst, x', {VoteReply(m.dst, m.src, m.vote, VoteResponse(x'.currentTerm, true))}, None)
  {
    var n := m.dst;
    NodeFacts(s, n);
    GrantOk(s.core, n, s.nodes[n], m.src);
    var x' := SaveHardState(s.nodes[n].(votedFor := m.src));
    GrantSent(CastVote(s.core, n, m.src), m, x');
    assert Delivered(n, s.nodes[n], x') == {};
  }

  lemma GrantSent(c: Core, m: Message, x: NodeState)
    requires m.VoteCall? && m.src in c.servers && m.dst in c.servers && m.src != m.dst && x.currentTerm == m.vote.term
    requires Slot(m.dst, m.vote.term) in c.ballots && c.ballots[Slot(m.dst, m.vote.term)].candidate == m.src
    ensures SentOk(c, m.dst, x, {VoteReply(m.dst, m.src, m.vote, VoteResponse(x.currentTerm, true))})
  {
  }

  /** Asked again by the candidate it already voted for, a node repeats its answer. */
  lemma RegrantMove(s: Cluster, m: Message)
    requires Calm(s) && MsgOk(s.core, m) && m.VoteCall?
    requires var x := s.nodes[m.dst]; m.vote.term == x.currentTerm && x.votedFor == m.vote.candidateId
    ensures var x' := SaveHardState(s.nodes[m.dst].(votedFor := m.vote.candidateId));
            MoveOk(s, m.dst, x', {VoteReply(m.dst, m.src, m.vote, VoteResponse(x'.currentTerm, true))}, None)
  {
    NodeFacts(s, m.dst);
    var x := s.nodes[m.dst];
    assert SaveHardState(x.(votedFor := m.vote.candidateId)) == x;
    GrantSent(s.core, m, x);
    QuietMove(s, m.dst, x, {VoteReply(m.dst, m.src, m.vote, VoteResponse(x.currentTerm, true))});
  }

  function VoteAnswer(m: Message, x: NodeState): Message
    requires m.VoteCall?
  {
    VoteReply(m.dst, m.src, m.vote, HandleRequestVote(x, m.vote).1)
  }

  /** A vote request of the node's own term or an earlier one. */
  lemma VoteCallMove(s: Cluster, m: Message)
    requires Calm(s) && MsgOk(s.core, m) && m.VoteCall? && CallOk(m.vote, s.nodes[m.src])
    requires m.vote.term <= s.nodes[m.dst].currentTerm
    ensures var x := s.nodes[m.dst]; MoveOk(s, m.dst, HandleRequestVote(x, m.vote).0, {VoteAnswer(m, x)}, None)
  {
    var x := s.nodes[m.dst];
    VoteRequestCases(x, m.vote);
    var r := VoteAnswer(m, x);
    if m.vote.term == x.currentTerm && r.voteResp.voteGranted {
      if x.votedFor == NO_NODE {
        GrantMove(s, m);
      } else {
        RegrantMove(s, m);
      }
    } else {
      DeclineMove(s, m, r);
    }
  }

  lemma VoteRequestCases(x: NodeState, req: VoteRequest)
    requires req.term <= x.currentTerm
    ensures var (x', resp) := HandleRequestVote(x, req);
            if req.term == x.currentTerm && resp.voteGranted then
              && (x.votedFor == NO_NODE || x.votedFor == req.candidateId)
              && UpToDate(req.lastLogIndex, req.lastLogTerm, x.log)
              && x' == SaveHardState(x.(votedFor := req.candidateId)) && resp == VoteResponse(x'.currentTerm, true)
            else x' == x && !resp.voteGranted
  {
  }

  lemma VoteRequestRaises(x: NodeState, req: VoteRequest)
    requires req.term > x.currentTerm
    ensures HandleRequestVote(x, req) == HandleRequestVote(BecomeFollower(x, req.term), req)
    ensures HandleRequestVote(x, req).0.currentTerm == req.term
  {
  }
}
