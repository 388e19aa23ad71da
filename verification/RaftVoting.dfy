/**
 Who gets votes, and who must step aside. What the other modules say of elections keeps a wrong candidate out; this one
 says that a right one gets in, and what the terms and votes of a node are over a whole run.
 */
module RaftVoting {

  import opened Wrappers
  import opened Bytes
  import opened RaftTypes
  import opened RaftSpec
  import opened RaftCore
  import opened RaftCoreProofs
  import opened RaftCluster
  import opened RaftInvariant
  import opened RaftElectionSteps
  import opened RaftSafety
  import opened RaftTheorems

  // ---------------------------------------------------------------- granting a vote

  /** The log ends in a later term than the other, or in the same one and has more entries. */
  predicate Ahead(log: seq<Entry>, other: seq<Entry>) {
    LastTerm(log) > LastTerm(other) || (LastTerm(log) == LastTerm(other) && |log| > |other|)
  }

  /** What a candidate with this log asks for in term t. */
  function Candidacy(id: NodeId, log: seq<Entry>, t: nat): VoteRequest { VoteRequest(t, id, |log|, LastTerm(log)) }

  predicate Grants(x: NodeState, req: VoteRequest) { HandleRequestVote(x, req).1.voteGranted }

  /**
   A vote is granted exactly if the term is not over, the node has not given its vote of that term to another, and its
   log is not ahead of the candidate's.
   */
  lemma GrantsIff(x: NodeState, id: NodeId, log: seq<Entry>, t: nat)
    ensures Grants(x, Candidacy(id, log, t))
       <==> && t >= x.currentTerm && !Ahead(x.log, log)
            && (t == x.currentTerm ==> x.votedFor == NO_NODE || x.votedFor == id)
  {
  }

  /** Of any two nodes, one gets the vote of the other in any term new to both. */
  lemma OneOfTwoGetsTheVote(a: NodeId, x: NodeState, b: NodeId, y: NodeState, t: nat)
    requires t > x.currentTerm && t > y.currentTerm
    ensures Grants(y, Candidacy(a, x.log, t)) || Grants(x, Candidacy(b, y.log, t))
  {
    GrantsIff(y, a, x.log, t);
    GrantsIff(x, b, y.log, t);
  }

  lemma AheadTransitive(a: seq<Entry>, b: seq<Entry>, c: seq<Entry>)
    requires !Ahead(a, b) && !Ahead(b, c)
    ensures !Ahead(a, c)
  {
  }

  /** Some node of a group has a log that no other is ahead of. */
  lemma {:induction false} SomeoneIsFirst(nodes: map<NodeId, NodeState>, group: set<NodeId>) returns (l: NodeId)
    requires group != {} && group <= nodes.Keys
    ensures l in group && forall q :: q in group ==> !Ahead(nodes[q].log, nodes[l].log)
    decreases group
  {
    l :| l in group;
    var rest := group - {l};
    if rest == {} {
      assert group == {l};
    } else {
      var r := SomeoneIsFirst(nodes, rest);
      if Ahead(nodes[r].log, nodes[l].log) {
        forall q | q in group ensures !Ahead(nodes[q].log, nodes[r].log) {
        }
        l := r;
      } else {
        forall q | q in group ensures !Ahead(nodes[q].log, nodes[l].log) {
          if q != l {
            AheadTransitive(nodes[q].log, nodes[r].log, nodes[l].log);
          }
        }
      }
    }
  }

  /**
   In every state of every run, every group of nodes has a member that all of it would vote for, in any term new to
   all: a majority can always elect one of its own.
   */
  lemma SomeoneIsElectable(run: seq<Cluster>, i: nat, group: set<NodeId>, t: nat) returns (l: NodeId)
    requires IsRun(run) && i < |run| && group != {} && group <= run[i].nodes.Keys
    requires forall q :: q in group ==> run[i].nodes[q].currentTerm < t
    ensures l in group && forall q :: q in group ==> Grants(run[i].nodes[q], Candidacy(l, run[i].nodes[l].log, t))
  {
    l := SomeoneIsFirst(run[i].nodes, group);
    forall q | q in group ensures Grants(run[i].nodes[q], Candidacy(l, run[i].nodes[l].log, t)) {
      GrantsIff(run[i].nodes[q], l, run[i].nodes[l].log, t);
    }
  }

  /** Terms never decrease along the log of a node, so one that lacks only the end of it is not ahead. */
  lemma BeginningIsNotAhead(termLog: map<nat, seq<Entry>>, log: seq<Entry>, k: nat)
    requires TermLogsOk(termLog) && Coherent(termLog, log) && k <= |log|
    ensures !Ahead(log[..k], log)
  {
    if k > 0 {
      LastTermAtLeast(termLog, log, k - 1);
    }
  }

  /** At any two moments of a run: a node whose log is a beginning of the candidate's votes for it in a new term. */
  lemma BeginningGrants(run: seq<Cluster>, i: nat, j: nat, a: NodeId, b: NodeId, t: nat)
    requires IsRun(run) && i < |run| && j < |run| && a in run[i].nodes && b in run[j].nodes
    requires run[j].nodes[b].log <= run[i].nodes[a].log && t > run[j].nodes[b].currentTerm
    ensures Grants(run[j].nodes[b], Candidacy(a, run[i].nodes[a].log, t))
  {
    var log := run[i].nodes[a].log;
    RunIsGood(run, i);
    GrowsReflexive(run[i].core);
    LogIsCoherent(run, i, run[i].core, a);
    BeginningIsNotAhead(run[i].core.termLog, log, |run[j].nodes[b].log|);
    assert log[..|run[j].nodes[b].log|] == run[j].nodes[b].log;
    GrantsIff(run[j].nodes[b], a, log, t);
  }

  // ---------------------------------------------------------------- the term of every message counts

  /** The term a message speaks of: that of the asker in a call, that of the answering node in a reply. */
  function TermOf(m: Message): nat {
    match m
    case VoteCall(_, _, req) => req.term
    case AppendCall(_, _, req) => req.term
    case SnapshotCall(_, _, req) => req.term
    case VoteReply(_, _, _, resp) => resp.term
    case AppendReply(_, _, _, resp) => resp.term
    case SnapshotReply(_, _, _, resp) => resp.term
  }

  /** The node has taken up the term if it was later than its own, and then leads no more. */
  predicate Heeds(x: NodeState, t: nat, x': NodeState) {
    && x'.currentTerm == (if t > x.currentTerm then t else x.currentTerm)
    && (t > x.currentTerm ==> x'.role == Follower)
  }

  lemma CallsAreHeeded(x: NodeState, vote: VoteRequest, append: AppendRequest, snap: SnapshotRequest,
                       covered: seq<Entry>)
    ensures var (x', resp) := HandleRequestVote(x, vote); Heeds(x, vote.term, x') && resp.term == x'.currentTerm
    ensures var (x', resp) := HandleAppendEntries(x, append); Heeds(x, append.term, x') && resp.term == x'.currentTerm
    ensures var (x', resp) := HandleInstallSnapshot(x, snap, covered);
            Heeds(x, snap.term, x') && resp.term == x'.currentTerm
  {
  }

  lemma RepliesAreHeeded(cfg: Config, x: NodeState, p: NodeId, vote: VoteRequest, voted: VoteResponse,
                         append: AppendRequest, took: AppendResponse, snap: SnapshotRequest, got: SnapshotResponse)
    ensures Heeds(x, voted.term, HandleVoteResponse(cfg, x, p, vote, voted))
    ensures Heeds(x, took.term, HandleAppendResponse(cfg, x, p, append, took))
    ensures Heeds(x, got.term, HandleSnapshotResponse(x, p, snap, got))
  {
  }

  predicate Delivers(step: Step) {
    || step.DeliverVoteCall? || step.DeliverVoteReply? || step.DeliverAppendCall? || step.DeliverAppendReply?
    || step.DeliverSnapshotCall? || step.DeliverSnapshotReply?
  }

  /**
   Whatever message is delivered to whichever node: a later term is taken up, and every answer tells the term the
   answering node is in.
   */
  lemma DeliveryIsHeeded(s: Cluster, step: Step)
    requires Enabled(s, step) && Delivers(step)
    ensures var o := Perform(s, step);
            && o.n == step.m.dst && Heeds(s.nodes[o.n], TermOf(step.m), o.x)
            && forall m :: m in o.sent ==> m.src == o.n && m.dst == step.m.src && TermOf(m) == o.x.currentTerm
  {
    var x := s.nodes[step.m.dst];
    var vote, append := VoteRequest(0, NO_NODE, 0, 0), AppendRequest(0, NO_NODE, 0, 0, [], 0);
    var snap := SnapshotRequest(0, NO_NODE, 0, 0, 0, [], false);
    match step
    case DeliverVoteCall(m) => CallsAreHeeded(x, m.vote, append, snap, []);
    case DeliverAppendCall(m) => CallsAreHeeded(x, vote, m.append, snap, []);
    case DeliverSnapshotCall(m) => CallsAreHeeded(x, vote, append, m.snap, Covered(s, m.snap));
    case DeliverVoteReply(m) =>
      RepliesAreHeeded(Cfg(s, m.dst), x, m.src, m.vote, m.voteResp, append, AppendResponse(0, false, 0, 0, 0), snap,
                       SnapshotResponse(0, false));
    case DeliverAppendReply(m) =>
      RepliesAreHeeded(Cfg(s, m.dst), x, m.src, vote, VoteResponse(0, false), m.append, m.appendResp, snap,
                       SnapshotResponse(0, false));
    case DeliverSnapshotReply(m) =>
      RepliesAreHeeded(Cfg(s, m.dst), x, m.src, vote, VoteResponse(0, false), append,
                       AppendResponse(0, false, 0, 0, 0), m.snap, m.snapResp);
  }

  /** The term of a node never falls, and within a term its vote is never given to another, across restarts. */
  lemma VoteIsKept(run: seq<Cluster>, i: nat, j: nat, n: NodeId)
    requires IsRun(run) && i <= j < |run| && n in run[i].nodes && n in run[j].nodes
    ensures run[i].nodes[n].currentTerm <= run[j].nodes[n].currentTerm
    ensures run[i].nodes[n].currentTerm == run[j].nodes[n].currentTerm && run[i].nodes[n].votedFor != NO_NODE ==>
              run[j].nodes[n].votedFor == run[i].nodes[n].votedFor
  {
    RunGrows(run, i, j);
    RunIsGood(run, i);
    RunIsGood(run, j);
    NodeFacts(run[i], n);
    NodeFacts(run[j], n);
  }

  // ---------------------------------------------------------------- a majority elects

  /** A candidate lacks votes, a leader does not. */
  predicate VotesFit(cfg: Config, x: NodeState) {
    && (x.role == Candidate ==> |x.votes| < cfg.Quorum())
    && (x.role == Leader ==> |x.votes| >= cfg.Quorum())
  }

  /** The node follows, or its role and its votes are what they were. */
  predicate SameStanding(x: NodeState, x': NodeState) {
    x'.role == Follower || (x'.role == x.role && x'.votes == x.votes)
  }

  lemma ElectionsFit(cfg: Config, x: NodeState, p: NodeId, req: VoteRequest, resp: VoteResponse)
    ensures VotesFit(cfg, StartElection(cfg, x))
    ensures VotesFit(cfg, x) ==> VotesFit(cfg, HandleVoteResponse(cfg, x, p, req, resp))
  {
  }

  lemma CallsKeepStanding(x: NodeState, vote: VoteRequest, append: AppendRequest, snap: SnapshotRequest,
                          covered: seq<Entry>)
    ensures SameStanding(x, HandleRequestVote(x, vote).0) && SameStanding(x, HandleAppendEntries(x, append).0)
    ensures SameStanding(x, HandleInstallSnapshot(x, snap, covered).0)
  {
  }

  lemma LeadingKeepsStanding(cfg: Config, x: NodeState, p: NodeId, data: Bytes, append: AppendRequest,
                             took: AppendResponse, snap: SnapshotRequest, got: SnapshotResponse)
    ensures SameStanding(x, Propose(cfg, x, data)) && SameStanding(x, HandleAppendResponse(cfg, x, p, append, took))
    ensures SameStanding(x, HandleSnapshotResponse(x, p, snap, got))
  {
  }

  lemma PerformFits(s: Cluster, step: Step)
    requires Enabled(s, step)
    ensures var o := Perform(s, step);
            VotesFit(Cfg(s, o.n), s.nodes[o.n]) ==> VotesFit(Cfg(s, o.n), o.x)
  {
    var vote, append := VoteRequest(0, NO_NODE, 0, 0), AppendRequest(0, NO_NODE, 0, 0, [], 0);
    var snap := SnapshotRequest(0, NO_NODE, 0, 0, 0, [], false);
    var took, got := AppendResponse(0, false, 0, 0, 0), SnapshotResponse(0, false);
    var x := s.nodes[Perform(s, step).n];
    match step
    case Timeout(n) => ElectionsFit(Cfg(s, n), x, n, vote, VoteResponse(0, false));
    case DeliverVoteReply(m) => ElectionsFit(Cfg(s, m.dst), x, m.src, m.vote, m.voteResp);
    case DeliverVoteCall(m) => CallsKeepStanding(x, m.vote, append, snap, []);
    case DeliverAppendCall(m) => CallsKeepStanding(x, vote, m.append, snap, []);
    case DeliverSnapshotCall(m) => CallsKeepStanding(x, vote, append, m.snap, Covered(s, m.snap));
    case ClientPropose(n, data) => LeadingKeepsStanding(Cfg(s, n), x, n, data, append, took, snap, got);
    case DeliverAppendReply(m) => LeadingKeepsStanding(Cfg(s, m.dst), x, m.src, [], m.append, m.appendResp, snap, got);
    case DeliverSnapshotReply(m) => LeadingKeepsStanding(Cfg(s, m.dst), x, m.src, [], append, took, m.snap, m.snapResp);
    case _ =>
  }

  ghost predicate AllFit(s: Cluster) { forall n :: n in s.nodes ==> VotesFit(Cfg(s, n), s.nodes[n]) }

  lemma PutFits(s: Cluster, n: NodeId, x: NodeState, sent: set<Message>, ack: Option<nat>)
    requires Present(s, n) && AllFit(s) && VotesFit(Cfg(s, n), x)
    ensures AllFit(Put(s, n, x, sent, ack))
  {
    assert Put(s, n, x, sent, ack).nodes.Keys == s.nodes.Keys;
  }

  lemma NextFits(s: Cluster, s': Cluster)
    requires AllFit(s) && Next(s, s')
    ensures AllFit(s')
  {
    var step :| Enabled(s, step) && s' == Apply(s, step);
    var o := Perform(s, step);
    PerformFits(s, step);
    PutFits(s, o.n, o.x, o.sent, o.ack);
  }

  lemma StartsFit(s: Cluster)
    requires Init(s)
    ensures AllFit(s)
  {
  }

  lemma FitsGoOn(run: seq<Cluster>, i: nat)
    requires IsRun(run) && i + 1 < |run| && AllFit(run[i])
    ensures AllFit(run[i + 1])
  {
    RunSteps(run, i, run[i], run[i + 1]);
    NextFits(run[i], run[i + 1]);
  }

  lemma {:induction false} RunFits(run: seq<Cluster>, i: nat)
    requires IsRun(run) && i < |run|
    ensures AllFit(run[i])
  {
    if i == 0 {
      StartsFit(run[0]);
    } else {
      RunFits(run, i - 1);
      FitsGoOn(run, i - 1);
    }
  }

  /** In every state of every run a leader has the votes of more than half of the nodes, and a candidate has not yet. */
  lemma MajorityElects(run: seq<Cluster>, i: nat, n: NodeId)
    requires IsRun(run) && i < |run| && n in run[i].nodes
    ensures var x := run[i].nodes[n];
            && (x.role == Leader ==> 2 * |x.votes| > |run[i].nodes|)
            && (x.role == Candidate ==> 2 * |x.votes| <= |run[i].nodes|)
  {
    RunFits(run, i);
    QuorumIsMajority(run[i].nodes.Keys, n);
  }

  lemma QuorumIsMajority(nodes: set<NodeId>, n: NodeId)
    requires n in nodes
    ensures forall k: nat :: k >= Config(n, nodes - {n}).Quorum() <==> 2 * k > |nodes|
  {
    assert |nodes - {n}| == |nodes| - 1;
  }

  // ---------------------------------------------------------------- whom a node takes for the leader

  /** A follower that names a leader names the one of its term; a leader names itself. */
  ghost predicate HintOk(c: Core, n: NodeId, x: NodeState) {
    && (x.role == Follower && x.leaderId != NO_NODE ==>
          x.currentTerm in c.elections && c.elections[x.currentTerm].leader == x.leaderId)
    && (x.role == Leader ==> x.leaderId == n)
  }

  /** A leader's call says whom it is from. */
  predicate Named(m: Message) {
    && (m.AppendCall? ==> m.append.leaderId == m.src)
    && (m.SnapshotCall? ==> m.snap.leaderId == m.src)
  }

  ghost predicate AllHinted(s: Cluster) {
    (forall n :: n in s.nodes ==> HintOk(s.core, n, s.nodes[n])) && forall m :: m in s.net ==> Named(m)
  }

  /** Nothing new is said of who leads, but that the node may lead itself. */
  predicate SameHint(n: NodeId, x: NodeState, x': NodeState) {
    || x'.role == Candidate || (x'.role == Leader && x'.leaderId == n)
    || (x'.role == Follower && x'.leaderId == NO_NODE)
    || (x'.role == x.role && x'.leaderId == x.leaderId && x'.currentTerm == x.currentTerm)
  }

  lemma OwnStepsHint(cfg: Config, x: NodeState, data: Bytes)
    ensures SameHint(cfg.id, x, StartElection(cfg, x)) && SameHint(cfg.id, x, Propose(cfg, x, data))
  {
  }

  lemma VotesHint(cfg: Config, x: NodeState, p: NodeId, vote: VoteRequest, voted: VoteResponse)
    ensures SameHint(cfg.id, x, HandleRequestVote(x, vote).0)
    ensures SameHint(cfg.id, x, HandleVoteResponse(cfg, x, p, vote, voted))
  {
  }

  lemma RepliesHint(cfg: Config, x: NodeState, p: NodeId, append: AppendRequest, took: AppendResponse,
                    snap: SnapshotRequest, got: SnapshotResponse)
    ensures SameHint(cfg.id, x, HandleAppendResponse(cfg, x, p, append, took))
    ensures SameHint(cfg.id, x, HandleSnapshotResponse(x, p, snap, got))
  {
  }

  /** A call from a leader is not answered by a node of a later term; any other takes the sender for the leader. */
  lemma CallsHint(x: NodeState, append: AppendRequest, snap: SnapshotRequest, covered: seq<Entry>)
    ensures var x' := HandleAppendEntries(x, append).0;
            if append.term < x.currentTerm then x' == x
            else x'.role == Follower && x'.leaderId == append.leaderId && x'.currentTerm == append.term
    ensures var x' := HandleInstallSnapshot(x, snap, covered).0;
            if snap.term < x.currentTerm then x' == x
            else x'.role == Follower && x'.leaderId == snap.leaderId && x'.currentTerm == snap.term
  {
  }

  lemma CalledHint(c: Core, n: NodeId, x: NodeState, m: Message, covered: seq<Entry>)
    requires HintOk(c, n, x) && MsgOk(c, m) && Named(m)
    ensures m.AppendCall? ==> HintOk(c, n, HandleAppendEntries(x, m.append).0)
    ensures m.SnapshotCall? ==> HintOk(c, n, HandleInstallSnapshot(x, m.snap, covered).0)
  {
    if m.AppendCall? {
      CallsHint(x, m.append, SnapshotRequest(0, NO_NODE, 0, 0, 0, [], false), covered);
    } else if m.SnapshotCall? {
      CallsHint(x, AppendRequest(0, NO_NODE, 0, 0, [], 0), m.snap, covered);
    }
  }

  lemma SameHintOk(c: Core, n: NodeId, x: NodeState, x': NodeState)
    requires HintOk(c, n, x) && SameHint(n, x, x')
    ensures HintOk(c, n, x')
  {
  }

  /** All steps but the calls of a leader. */
  lemma OthersHint(s: Cluster, step: Step)
    requires Enabled(s, step) && !step.DeliverAppendCall? && !step.DeliverSnapshotCall?
    ensures var o := Perform(s, step); SameHint(o.n, s.nodes[o.n], o.x)
  {
    var append, snap := AppendRequest(0, NO_NODE, 0, 0, [], 0), SnapshotRequest(0, NO_NODE, 0, 0, 0, [], false);
    var took, got := AppendResponse(0, false, 0, 0, 0), SnapshotResponse(0, false);
    var x := s.nodes[Perform(s, step).n];
    match step
    case Timeout(n) => OwnStepsHint(Cfg(s, n), x, []);
    case ClientPropose(n, data) => OwnStepsHint(Cfg(s, n), x, data);
    case DeliverVoteCall(m) => VotesHint(Cfg(s, m.dst), x, m.src, m.vote, VoteResponse(0, false));
    case DeliverVoteReply(m) => VotesHint(Cfg(s, m.dst), x, m.src, m.vote, m.voteResp);
    case DeliverAppendReply(m) => RepliesHint(Cfg(s, m.dst), x, m.src, m.append, m.appendResp, snap, got);
    case DeliverSnapshotReply(m) => RepliesHint(Cfg(s, m.dst), x, m.src, append, took, m.snap, m.snapResp);
    case _ =>
  }

  lemma MovedHint(s: Cluster, step: Step)
    requires Good(s) && AllHinted(s) && Enabled(s, step)
    ensures var o := Perform(s, step); HintOk(s.core, o.n, o.x)
  {
    var o := Perform(s, step);
    if step.DeliverAppendCall? || step.DeliverSnapshotCall? {
      CalledHint(s.core, o.n, s.nodes[o.n], step.m, if step.m.SnapshotCall? then Covered(s, step.m.snap) else []);
    } else {
      OthersHint(s, step);
      SameHintOk(s.core, o.n, s.nodes[o.n], o.x);
    }
  }

  lemma SentNamed(s: Cluster, step: Step, m: Message)
    requires Enabled(s, step) && m in Perform(s, step).sent
    ensures Named(m)
  {
  }

  lemma HintCarries(c: Core, c': Core, n: NodeId, x: NodeState)
    requires Grows(c, c') && HintOk(c, n, x)
    ensures HintOk(c', n, x)
  {
  }

  lemma PutHints(s: Cluster, s': Cluster, n: NodeId, x: NodeState, sent: set<Message>)
    requires AllHinted(s) && Grows(s.core, s'.core) && HintOk(s.core, n, x)
    requires s'.nodes == s.nodes[n := x] && s'.net == s.net + sent && forall m :: m in sent ==> Named(m)
    ensures AllHinted(s')
  {
    forall p | p in s'.nodes ensures HintOk(s'.core, p, s'.nodes[p]) {
      HintCarries(s.core, s'.core, p, s'.nodes[p]);
    }
  }

  lemma StepHints(s: Cluster, step: Step)
    requires Good(s) && AllHinted(s) && Enabled(s, step) && Grows(s.core, Apply(s, step).core)
    ensures AllHinted(Apply(s, step))
  {
    var o := Perform(s, step);
    MovedHint(s, step);
    forall m | m in o.sent ensures Named(m) {
      SentNamed(s, step, m);
    }
    PutHints(s, Apply(s, step), o.n, o.x, o.sent);
  }

  lemma NextHints(s: Cluster, s': Cluster)
    requires Good(s) && AllHinted(s) && Next(s, s')
    ensures AllHinted(s')
  {
    var step :| Enabled(s, step) && s' == Apply(s, step);
    StepKeeps(s, step);
    StepHints(s, step);
  }

  lemma StartsHinted(s: Cluster)
    requires Init(s)
    ensures AllHinted(s)
  {
  }

  lemma HintsGoOn(run: seq<Cluster>, i: nat)
    requires IsRun(run) && i + 1 < |run| && AllHinted(run[i])
    ensures AllHinted(run[i + 1])
  {
    RunIsGood(run, i);
    RunSteps(run, i, run[i], run[i + 1]);
    NextHints(run[i], run[i + 1]);
  }

  lemma {:induction false} RunHints(run: seq<Cluster>, i: nat)
    requires IsRun(run) && i < |run|
    ensures AllHinted(run[i])
  {
    if i == 0 {
      StartsHinted(run[0]);
    } else {
      RunHints(run, i - 1);
      HintsGoOn(run, i - 1);
    }
  }

  /** Where a follower sends its clients: whoever leads in its term, at any moment of the run, is the node it names. */
  lemma RedirectsToLeader(run: seq<Cluster>, i: nat, j: nat, n: NodeId, l: NodeId)
    requires IsRun(run) && i < |run| && j < |run| && n in run[i].nodes && l in run[j].nodes
    requires run[i].nodes[n].role == Follower && run[i].nodes[n].leaderId != NO_NODE
    requires run[j].nodes[l].role == Leader && run[j].nodes[l].currentTerm == run[i].nodes[n].currentTerm
    ensures run[i].nodes[n].leaderId == l
  {
    RunHints(run, i);
    assert HintOk(run[i].core, n, run[i].nodes[n]);
    LaterGrows(run, i, j);
    LeaderIsRecorded(run, j, run[Later(run, i, j)].core, l);
  }
}
