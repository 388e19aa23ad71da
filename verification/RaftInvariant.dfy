/** What holds in every state of a cluster. */
module RaftInvariant {

  import opened Wrappers
  import opened RaftTypes
  import opened RaftSpec
  import opened RaftCore
  import opened RaftCoreProofs
  import opened RaftCluster

  ghost predicate Sync(s: Cluster) {
    && NO_NODE !in s.nodes
    && s.nodes.Keys == s.core.servers && s.core.peers.Keys == s.core.servers
    && forall n :: n in s.nodes ==>
         s.core.peers[n] == Peer(s.nodes[n].currentTerm, s.nodes[n].log, s.nodes[n].commitIndex)
  }

  // ---------------------------------------------------------------- nodes

  ghost predicate VoterOk(c: Core, n: NodeId, x: NodeState) {
    && (x.votedFor != NO_NODE <==> Slot(n, x.currentTerm) in c.ballots)
    && (Slot(n, x.currentTerm) in c.ballots ==> c.ballots[Slot(n, x.currentTerm)].candidate == x.votedFor)
  }

  ghost predicate DiskOk(x: NodeState) {
    && x.disk.term == x.currentTerm && x.disk.votedFor == x.votedFor
    && x.disk.snapIndex == x.snapIndex && x.disk.snapTerm == x.snapTerm
    && x.snapIndex <= x.commitIndex <= |x.log| && x.snapTerm == TermAt(x.log, x.snapIndex)
  }

  ghost predicate CandidateOk(c: Core, n: NodeId, x: NodeState) {
    x.role == Candidate ==>
      && x.currentTerm >= 1
      && (x.currentTerm in c.elections ==> c.elections[x.currentTerm].leader != n)
      && forall v :: v in x.votes ==>
           v in c.servers && Slot(v, x.currentTerm) in c.ballots && c.ballots[Slot(v, x.currentTerm)].candidate == n
  }

  /** A match index never runs ahead of what the peer confirmed in this term. */
  ghost predicate MatchOk(c: Core, x: NodeState) {
    forall p :: p in x.matchIndex && x.matchIndex[p] > 0 ==>
      Slot(p, x.currentTerm) in c.acked && x.matchIndex[p] <= c.acked[Slot(p, x.currentTerm)]
  }

  /** The next index stays within the leader's log, or just behind it. */
  ghost predicate NextOk(c: Core, n: NodeId, x: NodeState) {
    forall p :: p in c.servers - {n} ==> p in x.nextIndex && 1 <= x.nextIndex[p] <= |x.log| + 1
  }

  ghost predicate LeaderOk(c: Core, n: NodeId, x: NodeState) {
    x.role == Leader ==>
      && x.currentTerm in c.elections && c.elections[x.currentTerm].leader == n
      && x.currentTerm in c.termLog && c.termLog[x.currentTerm] == x.log
      && Slot(n, x.currentTerm) in c.acked && c.acked[Slot(n, x.currentTerm)] == |x.log|
      && MatchOk(c, x) && NextOk(c, n, x)
  }

  ghost predicate SnapFactBy(c: Core, index: nat, term: nat, t: nat, i: nat) {
    Committed(c, t, i) && 0 < index <= i && c.termLog[t][index - 1].term == term
  }

  /** Some entry of this term at this index was committed, in a term no later than bound. */
  ghost predicate SnapFact(c: Core, index: nat, term: nat, bound: nat) {
    exists t: nat, i: nat :: t <= bound && SnapFactBy(c, index, term, t, i)
  }

  ghost predicate TransferOk(c: Core, x: NodeState) {
    x.transfer.Receiving? ==> SnapFact(c, x.transfer.index, x.transfer.term, x.currentTerm)
  }

  ghost predicate NodeOk(c: Core, n: NodeId, x: NodeState) {
    && VoterOk(c, n, x) && DiskOk(x) && CandidateOk(c, n, x) && LeaderOk(c, n, x) && TransferOk(c, x)
    && x.matchIndex.Keys <= c.servers - {n}
  }

  ghost predicate NodesOk(s: Cluster) {
    forall n :: n in s.nodes ==> NodeOk(s.core, n, s.nodes[n])
  }

  // ---------------------------------------------------------------- messages

  ghost predicate AppendOk(c: Core, leader: NodeId, req: AppendRequest) {
    && req.term in c.elections && c.elections[req.term].leader == leader && req.term in c.termLog
    && var log := c.termLog[req.term];
    && Reach(req) <= |log|
    && (forall j :: 0 <= j < |req.entries| ==> req.entries[j] == log[req.prevLogIndex + j])
    && (req.prevLogIndex > 0 ==> req.prevLogTerm == log[req.prevLogIndex - 1].term)
    && req.leaderCommit <= Reach(req)
    && CommittedUpTo(c, log, req.leaderCommit, req.term)
  }

  ghost predicate AppendReplyOk(c: Core, from: NodeId, req: AppendRequest, resp: AppendResponse) {
    && (resp.success ==>
          Slot(from, req.term) in c.acked && Reach(req) <= c.acked[Slot(from, req.term)])
    && (!resp.success && resp.term <= req.term ==> 1 <= resp.conflictIndex <= req.prevLogIndex)
  }

  ghost predicate SnapshotOk(c: Core, leader: NodeId, req: SnapshotRequest) {
    && req.term in c.elections && c.elections[req.term].leader == leader && req.term in c.termLog
    && 0 < req.lastIncludedIndex <= |c.termLog[req.term]|
    && c.termLog[req.term][req.lastIncludedIndex - 1].term == req.lastIncludedTerm
    && CommittedUpTo(c, c.termLog[req.term], req.lastIncludedIndex, req.term)
  }

  ghost predicate SnapshotReplyOk(c: Core, from: NodeId, req: SnapshotRequest, resp: SnapshotResponse) {
    resp.success && req.done ==>
      Slot(from, req.term) in c.acked && req.lastIncludedIndex <= c.acked[Slot(from, req.term)]
  }

  ghost predicate MsgOk(c: Core, m: Message) {
    && m.src in c.servers && m.dst in c.servers && m.src != m.dst
    && match m
       case VoteCall(src, dst, req) => req.candidateId == src
       case VoteReply(src, dst, req, resp) =>
         resp.voteGranted ==> Slot(src, req.term) in c.ballots && c.ballots[Slot(src, req.term)].candidate == dst
       case AppendCall(src, dst, req) => AppendOk(c, src, req)
       case AppendReply(src, dst, req, resp) => AppendOk(c, dst, req) && AppendReplyOk(c, src, req, resp)
       case SnapshotCall(src, dst, req) => SnapshotOk(c, src, req)
       case SnapshotReply(src, dst, req, resp) => SnapshotOk(c, dst, req) && SnapshotReplyOk(c, src, req, resp)
  }

  ghost predicate MsgsOk(s: Cluster) {
    forall m :: m in s.net ==> MsgOk(s.core, m)
  }

  /** A vote request describes its sender's log for as long as the sender is still that candidate. */
  ghost predicate CallOk(req: VoteRequest, x: NodeState) {
    && req.term <= x.currentTerm
    && (x.role == Candidate && x.currentTerm == req.term ==>
          req.lastLogIndex == |x.log| && req.lastLogTerm == LastTerm(x.log))
  }

  ghost predicate CallsOk(s: Cluster) {
    forall m :: m in s.net && m.VoteCall? && m.src in s.nodes ==> CallOk(m.vote, s.nodes[m.src])
  }

  /** A ballot found its candidate, in the role of candidate, at least as up to date as the voter was. */
  ghost predicate BallotOk(u: nat, ballot: Ballot, x: NodeState) {
    && u <= x.currentTerm
    && (x.role == Candidate && x.currentTerm == u ==> UpToDate(|x.log|, LastTerm(x.log), ballot.log))
  }

  ghost predicate BallotsFair(s: Cluster) {
    forall sl :: sl in s.core.ballots ==>
      && s.core.ballots[sl].candidate in s.nodes
      && BallotOk(sl.term, s.core.ballots[sl], s.nodes[s.core.ballots[sl].candidate])
  }

  // ---------------------------------------------------------------- deliveries

  ghost predicate CertifiedBy(c: Core, e: Entry, t: nat, i: nat) {
    Committed(c, t, i) && 0 < e.index <= i && c.termLog[t][e.index - 1] == e
  }

  ghost predicate Certified(c: Core, e: Entry) {
    exists t: nat, i: nat :: CertifiedBy(c, e, t, i)
  }

  ghost predicate DeliveredOk(s: Cluster) {
    forall d :: d in s.delivered ==> Certified(s.core, d.entry)
  }

  ghost predicate Good(s: Cluster) {
    && Sync(s) && Inv(s.core) && NodesOk(s) && MsgsOk(s) && CallsOk(s) && BallotsFair(s) && DeliveredOk(s)
  }

  // ---------------------------------------------------------------- recording one node's move

  /** Each entry made in the record is an action the protocol allows. */
  ghost predicate Recordable(c: Core, n: NodeId, x: NodeState, ack: Option<nat>) {
    && n in c.peers && c.peers[n].term <= x.currentTerm
    && var c2 := Voted(c, n, x);
       var c3 := Installed(c, n, x);
       var c4 := RecordLog(c3, n, x, ack);
       && (x.role == Leader && x.currentTerm !in c2.elections ==> CanElect(c2, n, x.votes))
       && (ack.Some? ==> CanAccept(c3, n, x.log, ack.value))
       && (ack.None? && x.log != c.peers[n].log ==>
             && x.log != [] && x.log[..|x.log| - 1] == c.peers[n].log
             && CanLeaderAppend(c3, n, x.log[|x.log| - 1]))
       && (x.commitIndex != c.peers[n].commit ==> CanCommit(c4, n, x.commitIndex))
  }

  lemma RecordTermKeeps(c: Core, n: NodeId, x: NodeState)
    requires Inv(c) && n in c.peers && c.peers[n].term <= x.currentTerm
    ensures var c' := RecordTerm(c, n, x); Inv(c') && Grows(c, c')
  {
    if x.currentTerm > c.peers[n].term { BumpKeeps(c, n, x.currentTerm); }
  }

  lemma RecordVoteKeeps(c: Core, n: NodeId, x: NodeState)
    requires Inv(c) && n in c.peers
    ensures var c' := RecordVote(c, n, x); Inv(c') && Grows(c, c')
  {
    if x.votedFor != NO_NODE && Slot(n, c.peers[n].term) !in c.ballots { CastVoteKeeps(c, n, x.votedFor); }
  }

  lemma RecordElectionKeeps(c: Core, n: NodeId, x: NodeState)
    requires Inv(c) && n in c.peers
    requires x.role == Leader && c.peers[n].term !in c.elections ==> CanElect(c, n, x.votes)
    ensures var c' := RecordElection(c, n, x); Inv(c') && Grows(c, c')
  {
    if x.role == Leader && c.peers[n].term !in c.elections { ElectKeeps(c, n, x.votes); }
  }

  lemma RecordLogKeeps(c: Core, n: NodeId, x: NodeState, ack: Option<nat>)
    requires Inv(c) && n in c.peers
    requires ack.Some? ==> CanAccept(c, n, x.log, ack.value)
    requires ack.None? && x.log != c.peers[n].log && x.log != [] ==> CanLeaderAppend(c, n, x.log[|x.log| - 1])
    ensures var c' := RecordLog(c, n, x, ack); Inv(c') && Grows(c, c')
  {
    if ack.Some? {
      AcceptKeeps(c, n, x.log, ack.value);
    } else if x.log != c.peers[n].log && x.log != [] {
      LeaderAppendKeeps(c, n, x.log[|x.log| - 1]);
    }
  }

  lemma RecordCommitKeeps(c: Core, n: NodeId, x: NodeState)
    requires Inv(c) && n in c.peers
    requires x.commitIndex != c.peers[n].commit ==> CanCommit(c, n, x.commitIndex)
    ensures var c' := RecordCommit(c, n, x); Inv(c') && Grows(c, c')
  {
    if x.commitIndex != c.peers[n].commit { CommitKeeps(c, n, x.commitIndex); }
  }

  lemma GrowsTransitive(a: Core, b: Core, c: Core)
    requires Grows(a, b) && Grows(b, c)
    ensures Grows(a, c)
  {
  }

  /** The ballot cast on the way, if any, names the candidate and the log before the move. */
  ghost predicate BallotNew(c: Core, c': Core, n: NodeId, x: NodeState, log: seq<Entry>) {
    forall sl :: sl in c'.ballots && sl !in c.ballots ==>
      sl == Slot(n, x.currentTerm) && c'.ballots[sl] == Ballot(x.votedFor, log)
  }

  function Voted(c: Core, n: NodeId, x: NodeState): (c': Core)
    requires n in c.peers
    ensures n in c'.peers
  {
    RecordVote(RecordTerm(c, n, x), n, x)
  }

  function Installed(c: Core, n: NodeId, x: NodeState): (c': Core)
    requires n in c.peers
    ensures n in c'.peers
  {
    RecordElection(Voted(c, n, x), n, x)
  }

  lemma RecordTermPeers(c: Core, n: NodeId, x: NodeState)
    requires n in c.peers && c.peers[n].term <= x.currentTerm
    ensures var c' := RecordTerm(c, n, x);
            c'.peers == c.peers[n := c.peers[n].(term := x.currentTerm)] && c'.ballots == c.ballots
  {
  }

  lemma RecordVotePeers(c: Core, n: NodeId, x: NodeState)
    requires n in c.peers && c.peers[n].term == x.currentTerm
    ensures var c' := RecordVote(c, n, x); c'.peers == c.peers && BallotNew(c, c', n, x, c.peers[n].log)
  {
  }

  lemma RecordElectionPeers(c: Core, n: NodeId, x: NodeState)
    requires n in c.peers
    ensures var c' := RecordElection(c, n, x); c'.peers == c.peers && c'.ballots == c.ballots
  {
  }

  lemma RecordLogPeers(c: Core, n: NodeId, x: NodeState, ack: Option<nat>)
    requires n in c.peers
    requires ack.None? && x.log != c.peers[n].log ==> x.log != [] && x.log[..|x.log| - 1] == c.peers[n].log
    ensures var c' := RecordLog(c, n, x, ack);
            c'.peers == c.peers[n := c.peers[n].(log := x.log)] && c'.ballots == c.ballots
  {
    if ack.None? && x.log != c.peers[n].log {
      assert x.log == x.log[..|x.log| - 1] + [x.log[|x.log| - 1]];
    }
  }

  lemma RecordCommitPeers(c: Core, n: NodeId, x: NodeState)
    requires n in c.peers
    ensures var c' := RecordCommit(c, n, x);
            c'.peers == c.peers[n := c.peers[n].(commit := x.commitIndex)] && c'.ballots == c.ballots
  {
  }

  lemma InstalledPeers(c: Core, n: NodeId, x: NodeState)
    requires n in c.peers && c.peers[n].term <= x.currentTerm
    ensures Voted(c, n, x).peers[n].term == x.currentTerm
    ensures var c' := Installed(c, n, x);
            && c'.peers == c.peers[n := c.peers[n].(term := x.currentTerm)]
            && BallotNew(c, c', n, x, c.peers[n].log)
  {
    var c1 := RecordTerm(c, n, x);
    var c2 := RecordVote(c1, n, x);
    RecordTermPeers(c, n, x);
    RecordVotePeers(c1, n, x);
    RecordElectionPeers(c2, n, x);
  }

  lemma VotedKeeps(c: Core, n: NodeId, x: NodeState)
    requires Inv(c) && n in c.peers && c.peers[n].term <= x.currentTerm
    ensures var c' := Voted(c, n, x); Inv(c') && Grows(c, c')
  {
    RecordTermKeeps(c, n, x);
    RecordVoteKeeps(RecordTerm(c, n, x), n, x);
    GrowsTransitive(c, RecordTerm(c, n, x), Voted(c, n, x));
  }

  lemma InstalledKeeps(c: Core, n: NodeId, x: NodeState)
    requires Inv(c) && n in c.peers && c.peers[n].term <= x.currentTerm
    requires x.role == Leader && x.currentTerm !in Voted(c, n, x).elections ==> CanElect(Voted(c, n, x), n, x.votes)
    ensures var c' := Installed(c, n, x); Inv(c') && Grows(c, c')
  {
    VotedKeeps(c, n, x);
    InstalledPeers(c, n, x);
    RecordElectionKeeps(Voted(c, n, x), n, x);
    GrowsTransitive(c, Voted(c, n, x), Installed(c, n, x));
  }

  lemma LoggedKeeps(c: Core, n: NodeId, x: NodeState, ack: Option<nat>)
    requires Inv(c) && Recordable(c, n, x, ack)
    ensures var c' := RecordLog(Installed(c, n, x), n, x, ack); Inv(c') && Grows(c, c')
  {
    InstalledKeeps(c, n, x);
    RecordLogKeeps(Installed(c, n, x), n, x, ack);
    GrowsTransitive(c, Installed(c, n, x), RecordLog(Installed(c, n, x), n, x, ack));
  }

  lemma RecordKeeps(c: Core, n: NodeId, x: NodeState, ack: Option<nat>)
    requires Inv(c) && Recordable(c, n, x, ack)
    ensures var c' := Record(c, n, x, ack); Inv(c') && Grows(c, c')
  {
    LoggedKeeps(c, n, x, ack);
    CommitAllowed(c, n, x, ack);
    RecordKeepsOn(c, RecordLog(Installed(c, n, x), n, x, ack), n, x);
  }

  lemma CommitAllowed(c: Core, n: NodeId, x: NodeState, ack: Option<nat>)
    requires Recordable(c, n, x, ack)
    ensures var c4 := RecordLog(Installed(c, n, x), n, x, ack);
            x.commitIndex != c4.peers[n].commit ==> CanCommit(c4, n, x.commitIndex)
  {
    InstalledPeers(c, n, x);
    RecordLogPeers(Installed(c, n, x), n, x, ack);
  }

  lemma RecordKeepsOn(c: Core, c4: Core, n: NodeId, x: NodeState)
    requires Inv(c4) && Grows(c, c4) && n in c4.peers
    requires x.commitIndex != c4.peers[n].commit ==> CanCommit(c4, n, x.commitIndex)
    ensures Inv(RecordCommit(c4, n, x)) && Grows(c, RecordCommit(c4, n, x))
  {
    RecordCommitKeeps(c4, n, x);
    GrowsTransitive(c, c4, RecordCommit(c4, n, x));
  }

  /** A record about node n in term t touches nothing that belongs to others. */
  ghost predicate OnlyAbout(c: Core, c': Core, n: NodeId, t: nat) {
    && c'.servers == c.servers
    && (forall sl :: sl in c'.ballots && sl != Slot(n, t) ==> sl in c.ballots)
    && (forall u :: u in c'.elections && u !in c.elections ==> c'.elections[u].leader == n)
    && (forall u :: u in c.elections ==> u in c'.elections && c'.elections[u] == c.elections[u])
    && (forall u :: u in c.termLog && u in c.elections && c.elections[u].leader != n ==>
          u in c'.termLog && c'.termLog[u] == c.termLog[u])
    && (forall sl :: sl in c.acked && sl.node != n ==> sl in c'.acked && c'.acked[sl] == c.acked[sl])
  }

  lemma OnlyAboutTransitive(a: Core, b: Core, c: Core, n: NodeId, t: nat)
    requires OnlyAbout(a, b, n, t) && OnlyAbout(b, c, n, t)
    ensures OnlyAbout(a, c, n, t)
  {
  }

  lemma RecordTermOnlyAbout(c: Core, n: NodeId, x: NodeState)
    requires n in c.peers
    ensures OnlyAbout(c, RecordTerm(c, n, x), n, x.currentTerm)
  {
  }

  lemma RecordVoteOnlyAbout(c: Core, n: NodeId, x: NodeState)
    requires n in c.peers && c.peers[n].term == x.currentTerm
    ensures OnlyAbout(c, RecordVote(c, n, x), n, x.currentTerm)
  {
  }

  lemma RecordElectionOnlyAbout(c: Core, n: NodeId, x: NodeState)
    requires n in c.peers && c.peers[n].term == x.currentTerm && c.elections.Keys == c.termLog.Keys
    ensures OnlyAbout(c, RecordElection(c, n, x), n, x.currentTerm)
  {
  }

  lemma RecordLogOnlyAbout(c: Core, n: NodeId, x: NodeState, ack: Option<nat>)
    requires n in c.peers && c.peers[n].term == x.currentTerm
    requires ack.None? && x.log != c.peers[n].log && x.log != [] ==> CanLeaderAppend(c, n, x.log[|x.log| - 1])
    ensures OnlyAbout(c, RecordLog(c, n, x, ack), n, x.currentTerm)
  {
  }

  lemma RecordCommitOnlyAbout(c: Core, n: NodeId, x: NodeState)
    requires n in c.peers
    ensures OnlyAbout(c, RecordCommit(c, n, x), n, x.currentTerm)
  {
  }

  lemma InstalledOnlyAbout(c: Core, n: NodeId, x: NodeState)
    requires n in c.peers && c.peers[n].term <= x.currentTerm && c.elections.Keys == c.termLog.Keys
    ensures OnlyAbout(c, Installed(c, n, x), n, x.currentTerm)
  {
    var c1 := RecordTerm(c, n, x);
    var c2 := RecordVote(c1, n, x);
    RecordTermPeers(c, n, x);
    RecordVotePeers(c1, n, x);
    RecordTermOnlyAbout(c, n, x);
    RecordVoteOnlyAbout(c1, n, x);
    OnlyAboutTransitive(c, c1, c2, n, x.currentTerm);
    RecordElectionOnlyAbout(c2, n, x);
    OnlyAboutTransitive(c, c2, Installed(c, n, x), n, x.currentTerm);
  }

  lemma RecordOnlyAbout(c: Core, n: NodeId, x: NodeState, ack: Option<nat>)
    requires Recordable(c, n, x, ack) && c.elections.Keys == c.termLog.Keys
    ensures OnlyAbout(c, Record(c, n, x, ack), n, x.currentTerm)
  {
    var c3 := Installed(c, n, x);
    var c4 := RecordLog(c3, n, x, ack);
    InstalledPeers(c, n, x);
    InstalledOnlyAbout(c, n, x);
    RecordLogOnlyAbout(c3, n, x, ack);
    OnlyAboutTransitive(c, c3, c4, n, x.currentTerm);
    RecordCommitOnlyAbout(c4, n, x);
    OnlyAboutTransitive(c, c4, Record(c, n, x, ack), n, x.currentTerm);
  }

  lemma RecordRestPeers(c: Core, n: NodeId, x: NodeState, ack: Option<nat>)
    requires n in c.peers
    requires ack.None? && x.log != c.peers[n].log ==> x.log != [] && x.log[..|x.log| - 1] == c.peers[n].log
    ensures var c' := RecordCommit(RecordLog(c, n, x, ack), n, x);
            c'.peers == c.peers[n := Peer(c.peers[n].term, x.log, x.commitIndex)] && c'.ballots == c.ballots
  {
    RecordLogPeers(c, n, x, ack);
    RecordCommitPeers(RecordLog(c, n, x, ack), n, x);
  }

  lemma RecordMirrors(c: Core, n: NodeId, x: NodeState, ack: Option<nat>)
    requires Recordable(c, n, x, ack)
    ensures var c' := Record(c, n, x, ack);
            && c'.peers == c.peers[n := Peer(x.currentTerm, x.log, x.commitIndex)]
            && BallotNew(c, c', n, x, c.peers[n].log)
  {
    InstalledPeers(c, n, x);
    RecordRestPeers(Installed(c, n, x), n, x, ack);
  }
}
