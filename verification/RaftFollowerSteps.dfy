/** Steps of a follower: taking over entries and snapshots from the leader of its term. */
module RaftFollowerSteps {

  import opened Wrappers
  import opened RaftTypes
  import opened RaftSpec
  import opened RaftCore
  import opened RaftCoreProofs
  import opened RaftCluster
  import opened RaftInvariant
  import opened RaftMoves
  import opened RaftElectionSteps
  import opened RaftLeaderSteps

  // ---------------------------------------------------------------- splicing logs

  /** Position k of the log holds an entry of the term the request brings for it. */
  ghost predicate Has(log: seq<Entry>, prev: nat, entries: seq<Entry>, k: nat) {
    k < |log| && prev <= k < prev + |entries| && log[k].term == entries[k - prev].term
  }

  /** Up to the divergence the log has what the request brings; at the divergence it has not. */
  lemma {:induction false} DivergenceMeaning(log: seq<Entry>, snapIndex: nat, prev: nat, entries: seq<Entry>, i: nat)
    requires prev < i <= prev + |entries| + 1
    ensures var d := Divergence(log, snapIndex, prev, entries, i);
            && (forall k: nat :: i - 1 <= k < d - 1 && k >= snapIndex ==> Has(log, prev, entries, k))
            && (d <= prev + |entries| ==>
                  d > snapIndex && (d > |log| || log[d - 1].term != entries[d - 1 - prev].term))
    decreases prev + |entries| + 1 - i
  {
    if i < prev + |entries| + 1
       && (i <= snapIndex || (i <= |log| && log[i - 1].term == entries[i - 1 - prev].term)) {
      DivergenceMeaning(log, snapIndex, prev, entries, i + 1);
    }
  }

  /** The divergence is within the log, or right behind it. */
  lemma DivergenceInReach(log: seq<Entry>, snapIndex: nat, prev: nat, entries: seq<Entry>)
    requires prev <= |log| && snapIndex <= |log|
    ensures Divergence(log, snapIndex, prev, entries, prev + 1) <= |log| + 1
  {
    var d := Divergence(log, snapIndex, prev, entries, prev + 1);
    DivergenceMeaning(log, snapIndex, prev, entries, prev + 1);
    if d - 2 >= prev && d - 2 >= snapIndex {
      assert Has(log, prev, entries, d - 2);
    }
  }

  ghost predicate CopiedFrom(leaderLog: seq<Entry>, prev: nat, entries: seq<Entry>) {
    && prev + |entries| <= |leaderLog|
    && forall j :: 0 <= j < |entries| ==> entries[j] == leaderLog[prev + j]
  }

  /** It compares terms only; log matching does the rest. */
  lemma AgreeToDivergence(termLog: map<nat, seq<Entry>>, t: nat, log: seq<Entry>, snapIndex: nat, prev: nat,
                          entries: seq<Entry>, d: nat)
    requires t in termLog && Coherent(termLog, termLog[t]) && Coherent(termLog, log)
    requires CopiedFrom(termLog[t], prev, entries) && Agree(log, termLog[t], Max(prev, snapIndex))
    requires d == Divergence(log, snapIndex, prev, entries, prev + 1)
    ensures Agree(log, termLog[t], d - 1)
  {
    DivergenceMeaning(log, snapIndex, prev, entries, prev + 1);
    if Max(prev, snapIndex) < d - 1 {
      assert Has(log, prev, entries, d - 2);
      CoherentLogsMatch(termLog, log, termLog[t], d - 2);
    }
  }

  lemma SpliceIs(log: seq<Entry>, snapIndex: nat, prev: nat, entries: seq<Entry>, k: nat)
    requires k + 1 == Divergence(log, snapIndex, prev, entries, prev + 1) && k < prev + |entries| && k <= |log|
    ensures Splice(log, snapIndex, prev, entries) == log[..k] + entries[k - prev..]
  {
  }

  lemma SpliceAt(log: seq<Entry>, leaderLog: seq<Entry>, snapIndex: nat, prev: nat, entries: seq<Entry>, k: nat)
    requires k + 1 == Divergence(log, snapIndex, prev, entries, prev + 1)
    requires CopiedFrom(leaderLog, prev, entries) && Agree(log, leaderLog, k)
    ensures var log' := Splice(log, snapIndex, prev, entries);
            Agree(log', leaderLog, prev + |entries|) && Spliced(log, leaderLog, prev + |entries|, log')
  {
    if k < prev + |entries| {
      DivergenceMeaning(log, snapIndex, prev, entries, prev + 1);
      SpliceIs(log, snapIndex, prev, entries, k);
      SplicedHere(log, leaderLog, prev, entries, k);
    }
  }

  /**
   A follower whose log agrees with the leader's up to the previous entry and up to its own snapshot ends
   up with the leader's entries up to the last one sent.
   */
  lemma SpliceAccepts(termLog: map<nat, seq<Entry>>, t: nat, log: seq<Entry>, snapIndex: nat, prev: nat,
                      entries: seq<Entry>)
    requires t in termLog && Coherent(termLog, termLog[t]) && Coherent(termLog, log)
    requires CopiedFrom(termLog[t], prev, entries) && prev <= |log|
    requires Agree(log, termLog[t], Max(prev, snapIndex))
    ensures var log' := Splice(log, snapIndex, prev, entries);
            Agree(log', termLog[t], prev + |entries|) && Spliced(log, termLog[t], prev + |entries|, log')
  {
    var d := Divergence(log, snapIndex, prev, entries, prev + 1);
    AgreeToDivergence(termLog, t, log, snapIndex, prev, entries, d);
    SpliceAt(log, termLog[t], snapIndex, prev, entries, d - 1);
  }

  lemma SplicedHere(log: seq<Entry>, leaderLog: seq<Entry>, prev: nat, entries: seq<Entry>, k: nat)
    requires CopiedFrom(leaderLog, prev, entries) && Agree(log, leaderLog, k) && prev <= k < prev + |entries|
    requires k < |log| ==> log[k].term != entries[k - prev].term
    ensures var log' := log[..k] + entries[k - prev..];
            Agree(log', leaderLog, prev + |entries|) && SplicedAt(log, leaderLog, prev + |entries|, log', k)
  {
    var log' := log[..k] + entries[k - prev..];
    assert k < |log| ==> leaderLog[k] == entries[k - prev];
    forall j | 0 <= j < prev + |entries| ensures log'[j] == leaderLog[j] {
      if j >= k {
        assert log'[j] == entries[j - prev];
      }
    }
  }

  /** The log check passing means agreement with the leader, also when the previous entry is compacted away. */
  lemma CheckedPrevAgrees(termLog: map<nat, seq<Entry>>, x: NodeState, req: AppendRequest)
    requires req.term in termLog && Coherent(termLog, termLog[req.term]) && Coherent(termLog, x.log)
    requires req.prevLogIndex <= |termLog[req.term]|
    requires req.prevLogIndex > 0 ==> req.prevLogTerm == termLog[req.term][req.prevLogIndex - 1].term
    requires PrevMatches(x, req) && Agree(x.log, termLog[req.term], x.snapIndex)
    ensures req.prevLogIndex <= |x.log| && Agree(x.log, termLog[req.term], Max(req.prevLogIndex, x.snapIndex))
  {
    if 0 < req.prevLogIndex && x.snapIndex <= req.prevLogIndex {
      CoherentLogsMatch(termLog, x.log, termLog[req.term], req.prevLogIndex - 1);
    }
  }

  // ---------------------------------------------------------------- acknowledging

  lemma AckRecord(c: Core, n: NodeId, x: NodeState, x': NodeState, m: nat)
    requires n in c.peers && c.peers[n] == Peer(x.currentTerm, x.log, x.commitIndex) && VoterOk(c, n, x)
    requires x'.currentTerm == x.currentTerm && x'.votedFor == x.votedFor && x'.role == Follower
    requires CanAccept(c, n, x'.log, m)
    requires x'.commitIndex != x.commitIndex ==> CanCommit(Accept(c, n, x'.log, m), n, x'.commitIndex)
    ensures Recordable(c, n, x', Some(m)) && Record(c, n, x', Some(m)) == RecordCommit(Accept(c, n, x'.log, m), n, x')
  {
    assert Voted(c, n, x') == c;
    assert Installed(c, n, x') == c;
  }

  /** A follower that takes over a log agreeing with its leader's stays in order. */
  lemma AckedOk(c: Core, n: NodeId, x: NodeState, x': NodeState, m: nat)
    requires n in c.peers && NodeOk(c, n, x) && Grows(c, Accept(c, n, x'.log, m))
    requires x'.currentTerm == x.currentTerm && x'.votedFor == x.votedFor && x'.role == Follower
    requires x'.matchIndex == x.matchIndex && DiskOk(x') && TransferOk(c, x')
    ensures NodeOk(Accept(c, n, x'.log, m), n, x')
  {
    if x'.transfer.Receiving? {
      SnapFactCarries(c, Accept(c, n, x'.log, m), x'.transfer.index, x'.transfer.term, x'.currentTerm, x'.currentTerm);
    }
  }

  /** The acknowledging node itself is in order; so are its answer and what it hands out. */
  lemma AckMove(s: Cluster, n: NodeId, x': NodeState, m: nat, reply: Message)
    requires Sync(s) && n in s.nodes
    requires Recordable(s.core, n, x', Some(m))
    requires var c1 := Accept(s.core, n, x'.log, m);
             && Record(s.core, n, x', Some(m)) == RecordCommit(c1, n, x')
             && NodeOk(c1, n, x') && MsgOk(c1, reply) && !reply.VoteCall?
             && forall d :: d in Delivered(n, s.nodes[n], x') ==> Certified(c1, d.entry)
    requires x'.role == Follower && (x'.votedFor == NO_NODE || Slot(n, x'.currentTerm) in s.core.ballots)
    ensures MoveOk(s, n, x', {reply}, Some(m))
  {
    var c1 := Accept(s.core, n, x'.log, m);
    var c' := RecordCommit(c1, n, x');
    NodeOkAcrossCommit(c1, n, x', x');
    RecordCommitGrows(c1, n, x');
    MsgCarries(c1, c', reply);
    SentOne(c', n, x', reply);
    forall d | d in Delivered(n, s.nodes[n], x') ensures Certified(c', d.entry) {
      CertifiedCarries(c1, c', d.entry);
    }
  }

  lemma HandedOutCertified(c: Core, log: seq<Entry>, lo: nat, k: nat, t: nat)
    requires TermLogsOk(c.termLog) && lo <= k <= |log| && (lo < k ==> CommittedUpTo(c, log, k, t))
    ensures forall e :: e in log[lo..k] ==> Certified(c, e)
  {
    if lo < k {
      CommittedCertified(c, log, t, lo, k);
    }
  }

  // ---------------------------------------------------------------- a request from the leader of the node's term

  /** The premises of the following steps, beyond those of the voting steps. */
  ghost predicate Settled(s: Cluster) { LogsOk(s.core) && Complete(s.core) && CommitsOk(s.core) }

  /** Everything a node knows to be committed, the leader of its term has. */
  lemma CommittedWithLeader(s: Cluster, n: NodeId)
    requires Calm(s) && Settled(s) && n in s.nodes && s.nodes[n].currentTerm in s.core.termLog
    ensures var x := s.nodes[n]; Agree(x.log, s.core.termLog[x.currentTerm], x.commitIndex)
    ensures s.nodes[n].snapIndex <= s.nodes[n].commitIndex
  {
    NodeFacts(s, n);
    var x := s.nodes[n];
    assert CommittedUpTo(s.core, x.log, x.commitIndex, x.currentTerm);
    LeaderHoldsCommitted(s.core, x.log, x.commitIndex, x.currentTerm);
  }

  /** A request cut from the leader's log, once it passes the check, splices in the leader's entries. */
  lemma RequestSplices(termLog: map<nat, seq<Entry>>, x: NodeState, req: AppendRequest)
    requires req.term in termLog && Coherent(termLog, termLog[req.term]) && Coherent(termLog, x.log)
    requires CopiedFrom(termLog[req.term], req.prevLogIndex, req.entries)
    requires req.prevLogIndex > 0 ==> req.prevLogTerm == termLog[req.term][req.prevLogIndex - 1].term
    requires PrevMatches(x, req) && Agree(x.log, termLog[req.term], x.snapIndex)
    ensures var log' := Splice(x.log, x.snapIndex, req.prevLogIndex, req.entries);
            Agree(log', termLog[req.term], Reach(req)) && Spliced(x.log, termLog[req.term], Reach(req), log')
  {
    CheckedPrevAgrees(termLog, x, req);
    SpliceAccepts(termLog, req.term, x.log, x.snapIndex, req.prevLogIndex, req.entries);
  }

  lemma SpliceAcceptable(c: Core, n: NodeId, x: NodeState, leader: NodeId, req: AppendRequest)
    requires LogsOk(c) && n in c.peers && c.peers[n] == Peer(x.currentTerm, x.log, x.commitIndex)
    requires AppendOk(c, leader, req) && leader != n && req.term == x.currentTerm && PrevMatches(x, req)
    requires Agree(x.log, c.termLog[req.term], x.snapIndex)
    ensures CanAccept(c, n, Splice(x.log, x.snapIndex, req.prevLogIndex, req.entries), Reach(req))
  {
    assert Coherent(c.termLog, c.termLog[req.term]) && Coherent(c.termLog, x.log);
    RequestSplices(c.termLog, x, req);
  }

  lemma AbsorbedDiskOk(x: NodeState, x': NodeState)
    requires DiskOk(x) && Agree(x'.log, x.log, x.commitIndex) && x.commitIndex <= x'.commitIndex <= |x'.log|
    requires x'.currentTerm == x.currentTerm && x'.votedFor == x.votedFor && x'.snapIndex == x.snapIndex
    requires x'.snapTerm == x.snapTerm && x'.disk == x.disk.(entries := x'.disk.entries)
    ensures DiskOk(x')
  {
    assert x.snapIndex > 0 ==> x'.log[x.snapIndex - 1] == x.log[x.snapIndex - 1];
  }

  /** HearLeader, in the leader's own term. */
  function Following(x: NodeState, leaderId: NodeId): NodeState { x.(role := Follower, leaderId := leaderId) }

  lemma FollowingOk(c: Core, n: NodeId, x: NodeState, leaderId: NodeId)
    requires NodeOk(c, n, x)
    ensures NodeOk(c, n, Following(x, leaderId)) && Quiet(x, Following(x, leaderId))
  {
  }

  /** x' is x following its leader, with a new log, and the commit index moved to k. */
  ghost predicate TookOver(x: NodeState, x': NodeState, leaderId: NodeId, k: nat) {
    && x.commitIndex <= k <= |x'.log| && Agree(x'.log, x.log, x.commitIndex)
    && x'.commitIndex == k && x'.out == x.out + Commands(x'.log[x.commitIndex..k])
    && x' == Following(x, leaderId).(log := x'.log, commitIndex := k, out := x'.out,
                                     disk := x.disk.(entries := x'.disk.entries))
  }

  /** The accepting branch: a new log, a new disk, and a commit index the leader vouches for. */
  lemma AbsorbTakesOver(x: NodeState, req: AppendRequest, log': seq<Entry>)
    requires log' == Splice(x.log, x.snapIndex, req.prevLogIndex, req.entries)
    requires Agree(log', x.log, x.commitIndex) && req.leaderCommit <= |log'|
    ensures var x' := AbsorbEntries(Following(x, req.leaderId), req);
            x'.log == log' && TookOver(x, x', req.leaderId, Max(x.commitIndex, req.leaderCommit))
  {
    assert x.out + Commands([]) == x.out;
  }

  ghost predicate Acknowledges(reply: Message, n: NodeId, leader: NodeId, req: AppendRequest) {
    reply.AppendReply? && reply.src == n && reply.dst == leader && reply.append == req && reply.appendResp.success
  }

  lemma AcceptMove(s: Cluster, n: NodeId, leader: NodeId, req: AppendRequest, x': NodeState, reply: Message)
    requires Calm(s) && Settled(s) && n in s.nodes && leader in s.core.servers
    requires AppendOk(s.core, leader, req) && leader != n && req.term == s.nodes[n].currentTerm
    requires PrevMatches(s.nodes[n], req) && x' == AbsorbEntries(Following(s.nodes[n], req.leaderId), req)
    requires Acknowledges(reply, n, leader, req)
    ensures MoveOk(s, n, x', {reply}, Some(Reach(req)))
  {
    NodeFacts(s, n);
    var x := s.nodes[n];
    var log' := Splice(x.log, x.snapIndex, req.prevLogIndex, req.entries);
    CommittedWithLeader(s, n);
    SpliceAcceptable(s.core, n, x, leader, req);
    AcceptGrows(s.core, n, log', Reach(req));
    AcceptKeepsCommits(s.core, n, log', Reach(req));
    AbsorbTakesOver(x, req, log');
    AcceptedMove(s, n, leader, req, x', reply);
  }

  lemma AcceptedOk(c: Core, n: NodeId, x: NodeState, x': NodeState, leader: NodeId, req: AppendRequest)
    requires n in c.peers && c.peers[n] == Peer(x.currentTerm, x.log, x.commitIndex) && NodeOk(c, n, x)
    requires AppendOk(c, leader, req) && req.term == x.currentTerm
    requires TookOver(x, x', req.leaderId, Max(x.commitIndex, req.leaderCommit))
    requires CanAccept(c, n, x'.log, Reach(req)) && Grows(c, Accept(c, n, x'.log, Reach(req)))
    ensures Recordable(c, n, x', Some(Reach(req)))
    ensures var c1 := Accept(c, n, x'.log, Reach(req));
            && Record(c, n, x', Some(Reach(req))) == RecordCommit(c1, n, x')
            && NodeOk(c1, n, x') && CommittedUpTo(c1, x'.log, req.leaderCommit, req.term)
  {
    var c1 := Accept(c, n, x'.log, Reach(req));
    CommittedUpToGrows(c, c1, c.termLog[req.term], x'.log, req.leaderCommit, req.term, req.term);
    AckRecord(c, n, x, x', Reach(req));
    AbsorbedDiskOk(x, x');
    AckedOk(c, n, x, x', Reach(req));
  }

  lemma AcceptedReplyOk(c: Core, n: NodeId, log': seq<Entry>, leader: NodeId, req: AppendRequest, reply: Message)
    requires n in c.peers && n in c.servers && leader in c.servers && leader != n && c.peers[n].term == req.term
    requires AppendOk(c, leader, req) && Grows(c, Accept(c, n, log', Reach(req))) && Acknowledges(reply, n, leader, req)
    ensures MsgOk(Accept(c, n, log', Reach(req)), reply)
  {
    AppendCarries(c, Accept(c, n, log', Reach(req)), leader, req);
  }

  lemma TookOverCertified(c: Core, n: NodeId, x: NodeState, x': NodeState, leaderId: NodeId, k: nat, t: nat)
    requires TermLogsOk(c.termLog) && TookOver(x, x', leaderId, Max(x.commitIndex, k)) && CommittedUpTo(c, x'.log, k, t)
    ensures forall d :: d in Delivered(n, x, x') ==> Certified(c, d.entry)
  {
    HandedOutCertified(c, x'.log, x.commitIndex, x'.commitIndex, t);
    DeliveredAre(n, x, x', x'.log[x.commitIndex..x'.commitIndex]);
  }

  lemma AcceptedMove(s: Cluster, n: NodeId, leader: NodeId, req: AppendRequest, x': NodeState, reply: Message)
    requires Calm(s) && LogsOk(s.core) && n in s.nodes && leader in s.core.servers
    requires AppendOk(s.core, leader, req) && leader != n && req.term == s.nodes[n].currentTerm
    requires CanAccept(s.core, n, x'.log, Reach(req)) && Grows(s.core, Accept(s.core, n, x'.log, Reach(req)))
    requires TookOver(s.nodes[n], x', req.leaderId, Max(s.nodes[n].commitIndex, req.leaderCommit))
    requires Acknowledges(reply, n, leader, req)
    ensures MoveOk(s, n, x', {reply}, Some(Reach(req)))
  {
    NodeFacts(s, n);
    var x := s.nodes[n];
    AcceptedOk(s.core, n, x, x', leader, req);
    AcceptedReplyOk(s.core, n, x'.log, leader, req, reply);
    TookOverCertified(Accept(s.core, n, x'.log, Reach(req)), n, x, x', req.leaderId, req.leaderCommit, req.term);
    AckMove(s, n, x', Reach(req), reply);
  }

  // ---------------------------------------------------------------- AppendEntries as a whole

  lemma {:induction false} RunStartBounds(x: NodeState, i: nat, term: nat)
    requires 1 <= i <= |x.log|
    ensures 1 <= RunStart(x, i, term) <= i
    ensures x.snapIndex < i ==> x.snapIndex < RunStart(x, i, term)
    ensures forall j :: RunStart(x, i, term) <= j < i ==> TermAt(x.log, j) == term
    ensures var r := RunStart(x, i, term); r > x.snapIndex + 1 ==> TermAt(x.log, r - 1) != term
    decreases i
  {
    if i > x.snapIndex + 1 && TermAt(x.log, i - 1) == term {
      RunStartBounds(x, i - 1, term);
    }
  }

  function AppendAnswer(m: Message, x: NodeState): Message
    requires m.AppendCall?
  {
    AppendReply(m.dst, m.src, m.append, HandleAppendEntries(x, m.append).1)
  }

  lemma AppendCases(x: NodeState, req: AppendRequest)
    requires req.term <= x.currentTerm
    ensures var (x', resp) := HandleAppendEntries(x, req);
            if req.term < x.currentTerm then x' == x && !resp.success && resp.term > req.term
            else if PrevMatches(x, req) then
              x' == AbsorbEntries(Following(x, req.leaderId), req) && resp.success
            else
              x' == Following(x, req.leaderId) && !resp.success && 1 <= resp.conflictIndex <= req.prevLogIndex
  {
    if req.term == x.currentTerm && !PrevMatches(x, req) && req.prevLogIndex <= |x.log| {
      var x1 := Following(x, req.leaderId);
      RunStartBounds(x1, req.prevLogIndex, TermAt(x.log, req.prevLogIndex));
    }
  }

  lemma RefuseMove(s: Cluster, m: Message, x': NodeState, reply: Message)
    requires Calm(s) && MsgOk(s.core, m) && m.AppendCall?
    requires x' == s.nodes[m.dst] || x' == Following(s.nodes[m.dst], m.append.leaderId)
    requires reply.AppendReply? && reply.src == m.dst && reply.dst == m.src && reply.append == m.append
    requires AppendReplyOk(s.core, m.dst, m.append, reply.appendResp)
    ensures MoveOk(s, m.dst, x', {reply}, None)
  {
    NodeFacts(s, m.dst);
    FollowingOk(s.core, m.dst, s.nodes[m.dst], m.append.leaderId);
    SentOne(s.core, m.dst, x', reply);
    QuietMove(s, m.dst, x', {reply});
  }

  /** An AppendEntries request of the node's own term or an earlier one. */
  lemma AppendCallMove(s: Cluster, m: Message)
    requires Calm(s) && Settled(s) && MsgOk(s.core, m) && m.AppendCall?
    requires m.append.term <= s.nodes[m.dst].currentTerm
    ensures var (x', resp) := HandleAppendEntries(s.nodes[m.dst], m.append);
            MoveOk(s, m.dst, x', {AppendAnswer(m, s.nodes[m.dst])},
                   if resp.success then Some(Reach(m.append)) else None)
  {
    var x := s.nodes[m.dst];
    AppendCases(x, m.append);
    var (x', resp) := HandleAppendEntries(x, m.append);
    if resp.success {
      AcceptMove(s, m.dst, m.src, m.append, x', AppendAnswer(m, x));
    } else {
      RefuseMove(s, m, x', AppendAnswer(m, x));
    }
  }

  lemma AppendRaises(x: NodeState, req: AppendRequest)
    requires req.term > x.currentTerm
    ensures HandleAppendEntries(x, req) == HandleAppendEntries(BecomeFollower(x, req.term), req)
    ensures HandleAppendEntries(x, req).0.currentTerm == req.term
  {
  }
}
