/**
 No state of any run is a dead end. Whatever has happened so far, any majority of nodes that have not compacted their
 logs can go on by itself: it can elect one of its own, and commit and hand out whatever that one is asked for.
 */
module RaftProgress {

  import opened Bytes
  import opened RaftTypes
  import opened RaftSpec
  import opened RaftCore
  import opened RaftCoreProofs
  import opened RaftCluster
  import opened RaftElectionSteps
  import opened RaftSafety
  import opened RaftTheorems
  import opened RaftLimits
  import opened RaftRollback
  import opened RaftVoting
  import opened RaftCommits

  // ---------------------------------------------------------------- going on

  /** Steps of elections and of replication. */
  predicate Ordinary(step: Step) {
    || step.Timeout? || step.DeliverVoteCall? || step.DeliverVoteReply? || step.ClientPropose? || step.Replicate?
    || step.DeliverAppendCall? || step.DeliverAppendReply?
  }

  ghost predicate Goes(s: Cluster, s': Cluster) {
    exists step :: Ordinary(step) && Enabled(s, step) && s' == Apply(s, step)
  }

  ghost predicate Linked<T(!new)>(rel: (T, T) -> bool, run: seq<T>, i: nat) {
    i + 1 < |run| && rel(run[i], run[i + 1])
  }

  ghost predicate Chain<T(!new)>(rel: (T, T) -> bool, run: seq<T>, from: nat) {
    forall i: nat :: from <= i + 1 < |run| ==> Linked(rel, run, i)
  }

  lemma ChainOn<T(!new)>(rel: (T, T) -> bool, run: seq<T>, from: nat, x: T)
    requires run != [] && Chain(rel, run, from) && rel(run[|run| - 1], x)
    ensures Chain(rel, run + [x], from)
  {
    forall i: nat | from <= i + 1 < |run + [x]| ensures Linked(rel, run + [x], i) {
      assert i + 1 < |run| ==> Linked(rel, run, i);
    }
  }

  ghost function Going(): (Cluster, Cluster) -> bool { (s, s') => Goes(s, s') }

  /** The run goes on from where another ended, by such steps, to the state s. */
  ghost predicate Continues(past: seq<Cluster>, run: seq<Cluster>, s: Cluster) {
    past != [] && past <= run && run[|run| - 1] == s && Chain(Going(), run, |past|)
  }

  lemma GoesIsNext(s: Cluster, s': Cluster)
    requires Goes(s, s')
    ensures Next(s, s')
  {
  }

  lemma WentAt(past: seq<Cluster>, run: seq<Cluster>, s: Cluster, i: nat)
    requires Continues(past, run, s) && |past| <= i + 1 < |run|
    ensures Goes(run[i], run[i + 1])
  {
    assert Linked(Going(), run, i);
  }

  lemma ContinuesRun(past: seq<Cluster>, run: seq<Cluster>, s: Cluster)
    requires IsRun(past) && Continues(past, run, s)
    ensures IsRun(run)
  {
    forall i: nat | i + 1 < |run| ensures StepAt(run, i) {
      if i + 1 < |past| {
        assert StepAt(past, i) && run[i] == past[i] && run[i + 1] == past[i + 1];
      } else {
        WentAt(past, run, s, i);
        GoesIsNext(run[i], run[i + 1]);
      }
    }
  }

  lemma ContinuesOn(past: seq<Cluster>, run: seq<Cluster>, s: Cluster, s': Cluster)
    requires Continues(past, run, s) && Goes(s, s')
    ensures Continues(past, run + [s'], s')
  {
    ChainOn(Going(), run, |past|, s');
  }

  /** Node n has become x, all others are as they were, and nothing sent is lost. */
  ghost predicate Moved(s: Cluster, s': Cluster, n: NodeId, x: NodeState, sent: set<Message>) {
    s'.nodes == s.nodes[n := x] && s.net + sent <= s'.net
  }

  lemma StepMoves(s: Cluster, step: Step)
    requires Enabled(s, step) && Ordinary(step)
    ensures var o := Perform(s, step); Goes(s, Apply(s, step)) && Moved(s, Apply(s, step), o.n, o.x, o.sent)
  {
  }

  lemma Takes(past: seq<Cluster>, run: seq<Cluster>, s: Cluster, step: Step) returns (run': seq<Cluster>, s': Cluster)
    requires Continues(past, run, s) && Enabled(s, step) && Ordinary(step)
    ensures var o := Perform(s, step); Continues(past, run', s') && Moved(s, s', o.n, o.x, o.sent)
  {
    StepMoves(s, step);
    s' := Apply(s, step);
    ContinuesOn(past, run, s, s');
    run' := run + [s'];
  }

  lemma RunPresent(past: seq<Cluster>, run: seq<Cluster>, s: Cluster, n: NodeId)
    requires IsRun(past) && Continues(past, run, s) && n in s.nodes
    ensures Present(s, n)
  {
    ContinuesRun(past, run, s);
    RunIsGood(run, |run| - 1);
    NodeFacts(s, n);
  }

  // ---------------------------------------------------------------- calls and answers

  lemma TimesOut(past: seq<Cluster>, run: seq<Cluster>, s: Cluster, n: NodeId) returns (run': seq<Cluster>, s': Cluster)
    requires IsRun(past) && Continues(past, run, s) && n in s.nodes && s.nodes[n].role != Leader
    ensures Continues(past, run', s')
    ensures var x := StartElection(Cfg(s, n), s.nodes[n]);
            Moved(s, s', n, x, if x.role == Leader then {} else
              set p | p in Cfg(s, n).peers :: VoteCall(n, p, BuildVoteRequest(Cfg(s, n), x)))
  {
    RunPresent(past, run, s, n);
    run', s' := Takes(past, run, s, Timeout(n));
  }

  lemma VoteAsked(past: seq<Cluster>, run: seq<Cluster>, s: Cluster, l: NodeId, q: NodeId, req: VoteRequest)
      returns (run': seq<Cluster>, s': Cluster)
    requires IsRun(past) && Continues(past, run, s) && q in s.nodes && VoteCall(l, q, req) in s.net
    ensures var (x, resp) := HandleRequestVote(s.nodes[q], req);
            Continues(past, run', s') && Moved(s, s', q, x, {VoteReply(q, l, req, resp)})
  {
    RunPresent(past, run, s, q);
    run', s' := Takes(past, run, s, DeliverVoteCall(VoteCall(l, q, req)));
  }

  lemma VoteCounted(past: seq<Cluster>, run: seq<Cluster>, s: Cluster, l: NodeId, q: NodeId, req: VoteRequest,
                    resp: VoteResponse) returns (run': seq<Cluster>, s': Cluster)
    requires IsRun(past) && Continues(past, run, s) && l in s.nodes && VoteReply(q, l, req, resp) in s.net
    ensures Continues(past, run', s')
    ensures Moved(s, s', l, HandleVoteResponse(Cfg(s, l), s.nodes[l], q, req, resp), {})
  {
    RunPresent(past, run, s, l);
    run', s' := Takes(past, run, s, DeliverVoteReply(VoteReply(q, l, req, resp)));
  }

  lemma IsAsked(past: seq<Cluster>, run: seq<Cluster>, s: Cluster, l: NodeId, data: Bytes)
      returns (run': seq<Cluster>, s': Cluster)
    requires IsRun(past) && Continues(past, run, s) && l in s.nodes
    ensures Continues(past, run', s') && Moved(s, s', l, Propose(Cfg(s, l), s.nodes[l], data), {})
  {
    RunPresent(past, run, s, l);
    run', s' := Takes(past, run, s, ClientPropose(l, data));
  }

  lemma Sends(past: seq<Cluster>, run: seq<Cluster>, s: Cluster, l: NodeId, q: NodeId)
      returns (run': seq<Cluster>, s': Cluster)
    requires IsRun(past) && Continues(past, run, s) && l in s.nodes && q in s.nodes && q != l
    requires s.nodes[l].role == Leader && At(s.nodes[l].nextIndex, q) > s.nodes[l].snapIndex
    ensures Continues(past, run', s')
    ensures Moved(s, s', l, s.nodes[l], {AppendCall(l, q, BuildAppend(Cfg(s, l), s.nodes[l], q))})
  {
    RunPresent(past, run, s, l);
    run', s' := Takes(past, run, s, Replicate(l, q));
  }

  lemma Receives(past: seq<Cluster>, run: seq<Cluster>, s: Cluster, l: NodeId, q: NodeId, req: AppendRequest)
      returns (run': seq<Cluster>, s': Cluster)
    requires IsRun(past) && Continues(past, run, s) && q in s.nodes && AppendCall(l, q, req) in s.net
    ensures var (x, resp) := HandleAppendEntries(s.nodes[q], req);
            Continues(past, run', s') && Moved(s, s', q, x, {AppendReply(q, l, req, resp)})
  {
    RunPresent(past, run, s, q);
    run', s' := Takes(past, run, s, DeliverAppendCall(AppendCall(l, q, req)));
  }

  lemma IsAnswered(past: seq<Cluster>, run: seq<Cluster>, s: Cluster, l: NodeId, q: NodeId, req: AppendRequest,
                   resp: AppendResponse) returns (run': seq<Cluster>, s': Cluster)
    requires IsRun(past) && Continues(past, run, s) && l in s.nodes && AppendReply(q, l, req, resp) in s.net
    ensures Continues(past, run', s')
    ensures Moved(s, s', l, HandleAppendResponse(Cfg(s, l), s.nodes[l], q, req, resp), {})
  {
    RunPresent(past, run, s, l);
    run', s' := Takes(past, run, s, DeliverAppendReply(AppendReply(q, l, req, resp)));
  }

  /** Two nodes have changed, and no other. */
  ghost predicate BothMoved(s: Cluster, s': Cluster, q: NodeId, x: NodeState, l: NodeId, y: NodeState) {
    s'.nodes == s.nodes[q := x][l := y] && s.net <= s'.net
  }

  /** A vote is asked for, and the answer counted. */
  lemma VoteRound(past: seq<Cluster>, run: seq<Cluster>, s: Cluster, l: NodeId, q: NodeId, req: VoteRequest)
      returns (run': seq<Cluster>, s': Cluster)
    requires IsRun(past) && Continues(past, run, s) && l in s.nodes && q in s.nodes && q != l
    requires VoteCall(l, q, req) in s.net
    ensures var (x, resp) := HandleRequestVote(s.nodes[q], req);
            && Continues(past, run', s')
            && BothMoved(s, s', q, x, l, HandleVoteResponse(Cfg(s, l), s.nodes[l], q, req, resp))
  {
    var run1, s1 := VoteAsked(past, run, s, l, q, req);
    assert Cfg(s1, l) == Cfg(s, l);
    run', s' := VoteCounted(past, run1, s1, l, q, req, HandleRequestVote(s.nodes[q], req).1);
  }

  /** Entries are sent, and the answer taken in. */
  lemma AppendRound(past: seq<Cluster>, run: seq<Cluster>, s: Cluster, l: NodeId, q: NodeId)
      returns (run': seq<Cluster>, s': Cluster)
    requires IsRun(past) && Continues(past, run, s) && l in s.nodes && q in s.nodes && q != l
    requires s.nodes[l].role == Leader && At(s.nodes[l].nextIndex, q) > s.nodes[l].snapIndex
    ensures var req := BuildAppend(Cfg(s, l), s.nodes[l], q);
            var (x, resp) := HandleAppendEntries(s.nodes[q], req);
            && Continues(past, run', s')
            && BothMoved(s, s', q, x, l, HandleAppendResponse(Cfg(s, l), s.nodes[l], q, req, resp))
  {
    var req := BuildAppend(Cfg(s, l), s.nodes[l], q);
    var run1, s1 := Sends(past, run, s, l, q);
    assert s1.nodes == s.nodes;
    var run2, s2 := Receives(past, run1, s1, l, q, req);
    assert Cfg(s2, l) == Cfg(s, l);
    run', s' := IsAnswered(past, run2, s2, l, q, req, HandleAppendEntries(s.nodes[q], req).1);
  }

  // ---------------------------------------------------------------- electing one of the majority

  predicate SameHoldings(x: NodeState, x': NodeState) {
    x'.log == x.log && x'.commitIndex == x.commitIndex && x'.snapIndex == x.snapIndex
  }

  /** Every node holds what it held. */
  ghost predicate AllHold(s: Cluster, s': Cluster) {
    s'.nodes.Keys == s.nodes.Keys && forall n :: n in s.nodes ==> SameHoldings(s.nodes[n], s'.nodes[n])
  }

  ghost predicate Majority(s: Cluster, group: set<NodeId>) { group <= s.nodes.Keys && 2 * |group| > |s.nodes| }

  ghost predicate Uncompacted(s: Cluster, group: set<NodeId>) {
    forall q :: q in group && q in s.nodes ==> s.nodes[q].snapIndex == 0
  }

  /** Node l leads, in a term no node of the group is beyond. */
  ghost predicate Leading(s: Cluster, l: NodeId, group: set<NodeId>) {
    && l in group && group <= s.nodes.Keys && s.nodes[l].role == Leader
    && forall q :: q in group ==> s.nodes[q].currentTerm <= s.nodes[l].currentTerm
  }

  lemma NewTermIsTakenUp(x: NodeState, req: VoteRequest)
    requires x.currentTerm < req.term
    ensures var (x', resp) := HandleRequestVote(x, req);
            SameHoldings(x, x') && x'.role == Follower && x'.currentTerm == req.term == resp.term
  {
  }

  /** A call for votes in a new term makes all of them follow in that term. */
  lemma {:induction false} AllStepDown(past: seq<Cluster>, run: seq<Cluster>, s: Cluster, p: NodeId, rest: set<NodeId>,
                                       req: VoteRequest) returns (run': seq<Cluster>, s': Cluster)
    requires IsRun(past) && Continues(past, run, s) && rest <= s.nodes.Keys
    requires forall q :: q in rest ==> VoteCall(p, q, req) in s.net && s.nodes[q].currentTerm < req.term
    ensures Continues(past, run', s') && AllHold(s, s') && s.net <= s'.net
    ensures forall q :: q in rest ==> s'.nodes[q].currentTerm == req.term && s'.nodes[q].role == Follower
    ensures forall n :: n in s.nodes && n !in rest ==> s'.nodes[n] == s.nodes[n]
    decreases rest
  {
    run', s' := run, s;
    if rest != {} {
      var q :| q in rest;
      NewTermIsTakenUp(s.nodes[q], req);
      var run1, s1 := VoteAsked(past, run, s, p, q, req);
      run', s' := AllStepDown(past, run1, s1, p, rest - {q}, req);
    }
  }

  /** It leads, or it stands and lacks votes. */
  predicate Running(cfg: Config, y: NodeState, t: nat) {
    y.currentTerm == t && (y.role == Leader || (y.role == Candidate && |y.votes| < cfg.Quorum()))
  }

  lemma VoteHelps(cfg: Config, y: NodeState, q: NodeId, req: VoteRequest, resp: VoteResponse)
    requires Running(cfg, y, req.term) && resp.voteGranted && resp.term == req.term
    ensures var y' := HandleVoteResponse(cfg, y, q, req, resp);
            && SameHoldings(y, y') && Running(cfg, y', req.term) && (y'.role == Leader || y'.votes == y.votes + {q})
            && (y.role == Leader ==> y'.role == Leader)
  {
  }

  /** They have been asked for their votes in a term new to them, and their logs are not ahead of the candidate's. */
  ghost predicate Electorate(s: Cluster, l: NodeId, rest: set<NodeId>, t: nat) {
    && l in s.nodes && rest <= s.nodes.Keys - {l} && Running(Cfg(s, l), s.nodes[l], t)
    && forall q :: q in rest ==>
         && VoteCall(l, q, Candidacy(l, s.nodes[l].log, t)) in s.net && s.nodes[q].currentTerm < t
         && !Ahead(s.nodes[q].log, s.nodes[l].log)
  }

  /** They have voted for the candidate, which leads now or has all their votes. */
  ghost predicate Backed(s: Cluster, s': Cluster, l: NodeId, rest: set<NodeId>, t: nat)
    requires l in s.nodes && rest <= s.nodes.Keys
  {
    && AllHold(s, s') && Running(Cfg(s, l), s'.nodes[l], t)
    && (s'.nodes[l].role == Leader || s.nodes[l].votes + rest <= s'.nodes[l].votes)
    && (s.nodes[l].role == Leader ==> s'.nodes[l].role == Leader)
    && (forall q :: q in rest ==> s'.nodes[q].currentTerm == t)
    && (forall n :: n in s.nodes && n !in rest && n != l ==> s'.nodes[n] == s.nodes[n])
  }

  lemma VotesForIt(cfg: Config, y: NodeState, x: NodeState, l: NodeId, q: NodeId, t: nat)
    requires Running(cfg, y, t) && x.currentTerm < t && !Ahead(x.log, y.log)
    ensures var req := Candidacy(l, y.log, t);
            var (x', resp) := HandleRequestVote(x, req);
            var y' := HandleVoteResponse(cfg, y, q, req, resp);
            && SameHoldings(x, x') && x'.currentTerm == t && SameHoldings(y, y') && Running(cfg, y', t)
            && (y'.role == Leader || y'.votes == y.votes + {q}) && (y.role == Leader ==> y'.role == Leader)
  {
    var req := Candidacy(l, y.log, t);
    GrantsIff(x, l, y.log, t);
    NewTermIsTakenUp(x, req);
    VoteHelps(cfg, y, q, req, HandleRequestVote(x, req).1);
  }

  lemma BackedByOne(s: Cluster, s': Cluster, l: NodeId, q: NodeId, t: nat, x: NodeState, y: NodeState)
    requires l in s.nodes && q in s.nodes && q != l && BothMoved(s, s', q, x, l, y)
    requires SameHoldings(s.nodes[q], x) && x.currentTerm == t && SameHoldings(s.nodes[l], y)
    requires Running(Cfg(s, l), y, t) && (y.role == Leader || y.votes == s.nodes[l].votes + {q})
    requires s.nodes[l].role == Leader ==> y.role == Leader
    ensures Backed(s, s', l, {q}, t)
  {
  }

  lemma OneVotes(past: seq<Cluster>, run: seq<Cluster>, s: Cluster, l: NodeId, q: NodeId, t: nat)
      returns (run': seq<Cluster>, s': Cluster)
    requires IsRun(past) && Continues(past, run, s) && l in s.nodes && q in s.nodes && q != l
    requires Running(Cfg(s, l), s.nodes[l], t) && s.nodes[q].currentTerm < t && !Ahead(s.nodes[q].log, s.nodes[l].log)
    requires VoteCall(l, q, Candidacy(l, s.nodes[l].log, t)) in s.net
    ensures Continues(past, run', s') && Backed(s, s', l, {q}, t) && s.net <= s'.net
  {
    var req := Candidacy(l, s.nodes[l].log, t);
    VotesForIt(Cfg(s, l), s.nodes[l], s.nodes[q], l, q, t);
    run', s' := VoteRound(past, run, s, l, q, req);
    BackedByOne(s, s', l, q, t, s'.nodes[q], s'.nodes[l]);
  }

  lemma ElectorateLeft(s: Cluster, s': Cluster, l: NodeId, rest: set<NodeId>, q: NodeId, t: nat)
    requires Electorate(s, l, rest, t) && q in rest && Backed(s, s', l, {q}, t) && s.net <= s'.net
    ensures Electorate(s', l, rest - {q}, t) && Cfg(s', l) == Cfg(s, l)
  {
  }

  lemma BackedByBoth(s: Cluster, m: Cluster, s': Cluster, l: NodeId, rest: set<NodeId>, q: NodeId, t: nat)
    requires l in s.nodes && l !in rest && q in rest && rest <= s.nodes.Keys && Backed(s, m, l, {q}, t)
    requires l in m.nodes && rest <= m.nodes.Keys && Backed(m, s', l, rest - {q}, t) && Cfg(m, l) == Cfg(s, l)
    ensures Backed(s, s', l, rest, t)
  {
    forall n | n in s.nodes ensures SameHoldings(s.nodes[n], s'.nodes[n]) {
      assert SameHoldings(s.nodes[n], m.nodes[n]) && SameHoldings(m.nodes[n], s'.nodes[n]);
    }
    forall p | p in rest ensures s'.nodes[p].currentTerm == t {
      assert p == q || p in rest - {q};
    }
  }

  /** Those whose logs are not ahead of the candidate's all vote for it. */
  lemma {:induction false} AllVote(past: seq<Cluster>, run: seq<Cluster>, s: Cluster, l: NodeId, rest: set<NodeId>,
                                   t: nat) returns (run': seq<Cluster>, s': Cluster)
    requires IsRun(past) && Continues(past, run, s) && Electorate(s, l, rest, t)
    ensures Continues(past, run', s') && Backed(s, s', l, rest, t)
    decreases rest
  {
    run', s' := run, s;
    if rest != {} {
      var q :| q in rest;
      var run1, s1 := OneVotes(past, run, s, l, q, t);
      ElectorateLeft(s, s1, l, rest, q, t);
      run', s' := AllVote(past, run1, s1, l, rest - {q}, t);
      BackedByBoth(s, s1, s', l, rest, q, t);
    }
  }

  // ---------------------------------------------------------------- a leader for the majority

  lemma {:induction false} LatestTerm(nodes: map<NodeId, NodeState>, group: set<NodeId>) returns (p: NodeId)
    requires group != {} && group <= nodes.Keys
    ensures p in group && forall q :: q in group ==> nodes[q].currentTerm <= nodes[p].currentTerm
    decreases group
  {
    p :| p in group;
    if group == {p} {
    } else {
      var r := LatestTerm(nodes, group - {p});
      if nodes[r].currentTerm > nodes[p].currentTerm {
        p := r;
      }
    }
  }

  /** Node p leads or stands in the next term; if it stands it has its own vote and has asked all others for theirs. */
  ghost predicate Stood(s: Cluster, s': Cluster, p: NodeId)
    requires p in s.nodes
  {
    var x, t := s.nodes[p], s.nodes[p].currentTerm + 1;
    && AllHold(s, s') && Running(Cfg(s, p), s'.nodes[p], t)
    && (forall q :: q in s.nodes && q != p ==> s'.nodes[q] == s.nodes[q])
    && (s'.nodes[p].role == Candidate ==> s'.nodes[p].votes == {p})
    && (s'.nodes[p].role == Candidate ==>
          forall q :: q in s.nodes && q != p ==> VoteCall(p, q, Candidacy(p, x.log, t)) in s'.net)
  }

  lemma StandsIs(cfg: Config, x: NodeState)
    ensures var x' := StartElection(cfg, x);
            && SameHoldings(x, x') && Running(cfg, x', x.currentTerm + 1)
            && (x'.role == Candidate ==> x'.votes == {cfg.id})
            && BuildVoteRequest(cfg, x') == Candidacy(cfg.id, x.log, x.currentTerm + 1)
  {
  }

  lemma MovedStood(s: Cluster, s': Cluster, p: NodeId, x': NodeState, sent: set<Message>)
    requires p in s.nodes && Moved(s, s', p, x', sent) && SameHoldings(s.nodes[p], x')
    requires Running(Cfg(s, p), x', s.nodes[p].currentTerm + 1) && (x'.role == Candidate ==> x'.votes == {p})
    requires x'.role == Candidate ==> forall q :: q in Cfg(s, p).peers ==>
               VoteCall(p, q, Candidacy(p, s.nodes[p].log, s.nodes[p].currentTerm + 1)) in sent
    ensures Stood(s, s', p)
  {
    if x'.role == Candidate {
      forall q | q in s.nodes && q != p
        ensures VoteCall(p, q, Candidacy(p, s.nodes[p].log, s.nodes[p].currentTerm + 1)) in s'.net
      {
        assert q in Cfg(s, p).peers;
      }
    }
  }

  lemma StandsForElection(past: seq<Cluster>, run: seq<Cluster>, s: Cluster, p: NodeId)
      returns (run': seq<Cluster>, s': Cluster)
    requires IsRun(past) && Continues(past, run, s) && p in s.nodes && s.nodes[p].role != Leader
    ensures Continues(past, run', s') && Stood(s, s', p)
  {
    StandsIs(Cfg(s, p), s.nodes[p]);
    var x' := StartElection(Cfg(s, p), s.nodes[p]);
    run', s' := TimesOut(past, run, s, p);
    MovedStood(s, s', p, x', if x'.role == Leader then {} else
      set q | q in Cfg(s, p).peers :: VoteCall(p, q, BuildVoteRequest(Cfg(s, p), x')));
  }

  /** All of the majority follow or stand in one term. */
  ghost predicate Levelled(s: Cluster, group: set<NodeId>, t: nat) {
    group <= s.nodes.Keys && forall q :: q in group ==> s.nodes[q].currentTerm == t && s.nodes[q].role != Leader
  }

  lemma AllHoldOn(s: Cluster, m: Cluster, s': Cluster)
    requires AllHold(s, m) && AllHold(m, s')
    ensures AllHold(s, s')
  {
    forall n | n in s.nodes ensures SameHoldings(s.nodes[n], s'.nodes[n]) {
      assert SameHoldings(s.nodes[n], m.nodes[n]) && SameHoldings(m.nodes[n], s'.nodes[n]);
    }
  }

  /** One that is in the latest term stands, and brings all others into the next. */
  lemma Levels(past: seq<Cluster>, run: seq<Cluster>, s: Cluster, p: NodeId, group: set<NodeId>)
      returns (run': seq<Cluster>, s': Cluster)
    requires IsRun(past) && Continues(past, run, s) && p in group && group <= s.nodes.Keys && s.nodes[p].role != Leader
    requires forall q :: q in group ==> s.nodes[q].currentTerm <= s.nodes[p].currentTerm
    ensures Continues(past, run', s') && AllHold(s, s')
    ensures var t := s.nodes[p].currentTerm + 1;
            Levelled(s', group, t) || (s'.nodes[p].role == Leader && Leading(s', p, group))
  {
    run', s' := StandsForElection(past, run, s, p);
    var s1, t := s', s.nodes[p].currentTerm + 1;
    if s1.nodes[p].role == Candidate {
      run', s' := AllStepDown(past, run', s1, p, group - {p}, Candidacy(p, s.nodes[p].log, t));
      AllHoldOn(s, s1, s');
      forall q | q in group ensures s'.nodes[q].currentTerm == t && s'.nodes[q].role != Leader {
        assert q == p || q in group - {p};
      }
    }
  }

  lemma IsElectorate(s: Cluster, s': Cluster, l: NodeId, group: set<NodeId>, t: nat)
    requires Levelled(s, group, t) && l in group && Stood(s, s', l) && s'.nodes[l].role == Candidate
    requires forall q :: q in group ==> !Ahead(s.nodes[q].log, s.nodes[l].log)
    ensures Electorate(s', l, group - {l}, t + 1)
  {
    assert Cfg(s', l) == Cfg(s, l);
    assert SameHoldings(s.nodes[l], s'.nodes[l]);
  }

  /** A candidate backed by a majority leads. */
  lemma BackedLeads(s: Cluster, s': Cluster, l: NodeId, group: set<NodeId>, t: nat)
    requires l in s.nodes && l in group && Majority(s, group) && s.nodes[l].votes == {l}
    requires Backed(s, s', l, group - {l}, t)
    ensures Leading(s', l, group)
  {
    if s'.nodes[l].role != Leader {
      assert group <= s'.nodes[l].votes;
      SubsetSize(group, s'.nodes[l].votes);
      QuorumIsMajority(s.nodes.Keys, l);
      assert false;
    }
    forall q | q in group ensures s'.nodes[q].currentTerm <= s'.nodes[l].currentTerm {
      assert q == l || q in group - {l};
    }
  }

  lemma StoodLeads(s: Cluster, s': Cluster, l: NodeId, group: set<NodeId>, t: nat)
    requires Levelled(s, group, t) && l in group && Stood(s, s', l) && s'.nodes[l].role == Leader
    ensures Leading(s', l, group)
  {
  }

  /** Of a majority in one term, one whose log no other is ahead of is elected. */
  lemma Elects(past: seq<Cluster>, run: seq<Cluster>, s: Cluster, group: set<NodeId>, t: nat)
      returns (run': seq<Cluster>, s': Cluster, l: NodeId)
    requires IsRun(past) && Continues(past, run, s) && Majority(s, group) && Levelled(s, group, t)
    ensures Continues(past, run', s') && AllHold(s, s') && Leading(s', l, group)
  {
    l := SomeoneIsFirst(s.nodes, group);
    var run1, s1 := StandsForElection(past, run, s, l);
    if s1.nodes[l].role == Leader {
      run', s' := run1, s1;
      StoodLeads(s, s1, l, group, t);
    } else {
      IsElectorate(s, s1, l, group, t);
      run', s' := AllVote(past, run1, s1, l, group - {l}, t + 1);
      BackedLeads(s1, s', l, group, t + 1);
      AllHoldOn(s, s1, s');
    }
  }

  /** Whatever the state of a run, one of any majority comes to lead it, and no node holds less or more for that. */
  lemma SomeoneLeads(past: seq<Cluster>, run: seq<Cluster>, s: Cluster, group: set<NodeId>)
      returns (run': seq<Cluster>, s': Cluster, l: NodeId)
    requires IsRun(past) && Continues(past, run, s) && Majority(s, group)
    ensures Continues(past, run', s') && AllHold(s, s') && Leading(s', l, group)
  {
    l := LatestTerm(s.nodes, group);
    run', s' := run, s;
    if s.nodes[l].role != Leader {
      var run1, s1 := Levels(past, run, s, l, group);
      run', s' := run1, s1;
      if !Leading(s1, l, group) {
        run', s', l := Elects(past, run1, s1, group, s.nodes[l].currentTerm + 1);
        AllHoldOn(s, s1, s');
      }
    }
  }

  // ---------------------------------------------------------------- one round of replication

  /** It leads on with the same log; it knows no less of anyone. */
  predicate StillLeads(y: NodeState, y': NodeState) {
    && y'.role == Leader && y'.currentTerm == y.currentTerm && y'.log == y.log && y'.snapIndex == y.snapIndex
    && y.commitIndex <= y'.commitIndex
  }

  ghost predicate KnowsAsMuch(y: NodeState, y': NodeState) {
    forall p :: At(y.matchIndex, p) <= At(y'.matchIndex, p)
  }

  lemma AdvanceLeads(cfg: Config, y: NodeState)
    requires y.role == Leader
    ensures var y' := MaybeAdvanceCommit(cfg, y); StillLeads(y, y') && y'.matchIndex == y.matchIndex
  {
  }

  lemma AcceptedLeads(cfg: Config, y: NodeState, q: NodeId, req: AppendRequest, resp: AppendResponse)
    requires y.role == Leader && req.term == y.currentTerm && resp.term == y.currentTerm && resp.success
    ensures var y' := HandleAppendResponse(cfg, y, q, req, resp);
            StillLeads(y, y') && KnowsAsMuch(y, y') && At(y'.matchIndex, q) >= Reach(req)
  {
    var m := Reach(req);
    if m > At(y.matchIndex, q) {
      AdvanceLeads(cfg, y.(matchIndex := y.matchIndex[q := m], nextIndex := y.nextIndex[q := m + 1]));
    } else {
      AdvanceLeads(cfg, y);
    }
  }

  lemma RejectedLeads(cfg: Config, y: NodeState, q: NodeId, req: AppendRequest, resp: AppendResponse)
    requires y.role == Leader && req.term == y.currentTerm && resp.term == y.currentTerm && !resp.success
    ensures HandleAppendResponse(cfg, y, q, req, resp) == y.(nextIndex := y.nextIndex[q := Backtrack(y, resp)])
  {
  }

  /** A follower that refuses takes up the leader's term and nothing else. */
  lemma RefusalHolds(x: NodeState, req: AppendRequest)
    requires x.currentTerm <= req.term
    ensures var (x', resp) := HandleAppendEntries(x, req);
            && x'.currentTerm == req.term == resp.term && x'.snapIndex == x.snapIndex
            && (!resp.success ==> SameHoldings(x, x'))
  {
  }

  lemma HeardIs(x: NodeState, req: AppendRequest)
    requires x.currentTerm <= req.term
    ensures var a := HearLeader(x, req.term, req.leaderId);
            a.currentTerm == req.term && a.log == x.log && a.snapIndex == x.snapIndex
  {
  }

  lemma AnswerIs(x: NodeState, req: AppendRequest)
    requires x.currentTerm <= req.term
    ensures var a := HearLeader(x, req.term, req.leaderId);
            HandleAppendEntries(x, req).1
              == if PrevMatches(a, req)
                 then AppendResponse(req.term, true, |Splice(x.log, x.snapIndex, req.prevLogIndex, req.entries)|, 0, 0)
                 else Rejection(a, req)
  {
    HeardIs(x, req);
  }

  lemma RejectionSame(a: NodeState, b: NodeState, req: AppendRequest)
    requires b.currentTerm == a.currentTerm && b.log == a.log && b.snapIndex == a.snapIndex
    ensures Rejection(b, req) == Rejection(a, req) && (PrevMatches(b, req) <==> PrevMatches(a, req))
  {
    if req.prevLogIndex <= |a.log| {
      RunStartSame(a, b, req.prevLogIndex, TermAt(a.log, req.prevLogIndex));
    }
  }

  /** What it answers depends on its log alone. */
  lemma SameAnswer(x: NodeState, x': NodeState, req: AppendRequest)
    requires x.currentTerm <= req.term && x'.currentTerm <= req.term && x'.log == x.log && x'.snapIndex == x.snapIndex
    ensures HandleAppendEntries(x', req).1 == HandleAppendEntries(x, req).1
  {
    AnswerIs(x, req);
    AnswerIs(x', req);
    HeardIs(x, req);
    HeardIs(x', req);
    RejectionSame(HearLeader(x, req.term, req.leaderId), HearLeader(x', req.term, req.leaderId), req);
  }

  lemma {:induction false} LastOfTermSame(y: NodeState, y': NodeState, i: nat, t: nat)
    requires i <= |y.log| && y'.log == y.log && y'.snapIndex == y.snapIndex
    ensures LastOfTerm(y', i, t) == LastOfTerm(y, i, t)
  {
    if i > y.snapIndex && TermAt(y.log, i) != t {
      LastOfTermSame(y, y', i - 1, t);
    }
  }

  lemma BacktrackSame(y: NodeState, y': NodeState, resp: AppendResponse)
    requires y'.log == y.log && y'.snapIndex == y.snapIndex
    ensures Backtrack(y', resp) == Backtrack(y, resp)
  {
    LastOfTermSame(y, y', |y.log|, resp.conflictTerm);
  }

  // ---------------------------------------------------------------- until the follower accepts

  lemma SameAttempt(cfg: Config, y: NodeState, y': NodeState, q: NodeId, n: nat, m: nat)
    requires y' == y.(nextIndex := y.nextIndex[q := m]) && n > y.snapIndex
    ensures Attempt(cfg, y', q, n) == Attempt(cfg, y, q, n)
  {
    assert y.nextIndex[q := m][q := n] == y.nextIndex[q := n];
  }

  lemma AttemptNow(cfg: Config, y: NodeState, q: NodeId)
    requires q in y.nextIndex && At(y.nextIndex, q) > y.snapIndex
    ensures Attempt(cfg, y, q, At(y.nextIndex, q)) == BuildAppend(cfg, y, q)
    ensures BuildAppend(cfg, y, q).term == y.currentTerm
  {
    assert y.nextIndex[q := y.nextIndex[q]] == y.nextIndex;
  }

  /** The search between leader and follower is the given one. */
  ghost predicate Mirrors(cfg: Config, y: NodeState, x: NodeState, q: NodeId, accepted: nat -> bool,
                          retry: nat -> nat) {
    forall n: nat :: n > y.snapIndex ==>
      accepted(n) == Accepts(cfg, y, x, q, n) && retry(n) == Retry(cfg, y, x, q, n)
  }

  lemma MirrorsOne(cfg: Config, y: NodeState, y': NodeState, x: NodeState, x': NodeState, q: NodeId, m: nat, n: nat)
    requires y' == y.(nextIndex := y.nextIndex[q := m]) && n > y.snapIndex
    requires x.currentTerm <= y.currentTerm && x'.currentTerm <= y.currentTerm
    requires x'.log == x.log && x'.snapIndex == x.snapIndex
    ensures Accepts(cfg, y', x', q, n) == Accepts(cfg, y, x, q, n) && Retry(cfg, y', x', q, n) == Retry(cfg, y, x, q, n)
  {
    SameAttempt(cfg, y, y', q, n, m);
    SameAnswer(x, x', Attempt(cfg, y, q, n));
    BacktrackSame(y, y', HandleAppendEntries(x, Attempt(cfg, y, q, n)).1);
  }

  lemma MirrorsOn(cfg: Config, y: NodeState, y': NodeState, x: NodeState, x': NodeState, q: NodeId, m: nat,
                  accepted: nat -> bool, retry: nat -> nat)
    requires Mirrors(cfg, y, x, q, accepted, retry) && y' == y.(nextIndex := y.nextIndex[q := m])
    requires x.currentTerm <= y.currentTerm && x'.currentTerm <= y.currentTerm
    requires x'.log == x.log && x'.snapIndex == x.snapIndex
    ensures Mirrors(cfg, y', x', q, accepted, retry)
  {
    forall n: nat | n > y'.snapIndex
      ensures accepted(n) == Accepts(cfg, y', x', q, n) && retry(n) == Retry(cfg, y', x', q, n)
    {
      MirrorsOne(cfg, y, y', x, x', q, m, n);
    }
  }

  /** Node l leads and has its whole log in memory; node q is in no later term. */
  ghost predicate MayTell(s: Cluster, l: NodeId, q: NodeId) {
    && l in s.nodes && q in s.nodes && q != l && s.nodes[l].role == Leader && s.nodes[l].snapIndex == 0
    && s.nodes[q].currentTerm <= s.nodes[l].currentTerm
  }

  lemma NextInRange(past: seq<Cluster>, run: seq<Cluster>, s: Cluster, l: NodeId, q: NodeId)
    requires IsRun(past) && Continues(past, run, s) && MayTell(s, l, q)
    ensures q in s.nodes[l].nextIndex && 0 < At(s.nodes[l].nextIndex, q) <= |s.nodes[l].log| + 1
  {
    ContinuesRun(past, run, s);
    RunIsGood(run, |run| - 1);
    NodeFacts(s, l);
    assert q in s.core.servers - {l};
  }

  lemma LeaderLogIs(past: seq<Cluster>, run: seq<Cluster>, s: Cluster, l: NodeId)
    requires IsRun(past) && Continues(past, run, s) && l in s.nodes && s.nodes[l].role == Leader
    ensures s.nodes[l].currentTerm in s.core.termLog && s.core.termLog[s.nodes[l].currentTerm] == s.nodes[l].log
  {
    ContinuesRun(past, run, s);
    RunIsGood(run, |run| - 1);
    NodeFacts(s, l);
  }

  lemma ClampNow(past: seq<Cluster>, run: seq<Cluster>, s: Cluster, m: Message)
    requires IsRun(past) && Continues(past, run, s) && m in s.net && m.AppendCall? && m.dst in s.nodes
    requires HandleAppendEntries(s.nodes[m.dst], m.append).1.success
    ensures m.append.term in s.core.termLog
    ensures CommitsWithin(s.nodes[m.dst], HandleAppendEntries(s.nodes[m.dst], m.append).0, m.append,
                          s.core.termLog[m.append.term])
  {
    ContinuesRun(past, run, s);
    CommitClampIsSafe(run, |run| - 1, m);
  }

  /** A follower that accepts has the whole log of the leader, and has committed as much. */
  lemma AcceptanceAgrees(past: seq<Cluster>, run: seq<Cluster>, s: Cluster, l: NodeId, q: NodeId)
    requires IsRun(past) && Continues(past, run, s) && MayTell(s, l, q) && At(s.nodes[l].nextIndex, q) > 0
    requires HandleAppendEntries(s.nodes[q], BuildAppend(Cfg(s, l), s.nodes[l], q)).1.success
    ensures var x' := HandleAppendEntries(s.nodes[q], BuildAppend(Cfg(s, l), s.nodes[l], q)).0;
            Agree(x'.log, s.nodes[l].log, |s.nodes[l].log|) && x'.commitIndex >= s.nodes[l].commitIndex
  {
    NextInRange(past, run, s, l, q);
    BuiltReachesEnd(Cfg(s, l), s.nodes[l], q);
    var req := BuildAppend(Cfg(s, l), s.nodes[l], q);
    var run1, s1 := Sends(past, run, s, l, q);
    assert s1.nodes == s.nodes;
    LeaderLogIs(past, run1, s1, l);
    ClampNow(past, run1, s1, AppendCall(l, q, req));
  }

  /** What a round of replication brings about. */
  ghost predicate Rounded(s: Cluster, s': Cluster, l: NodeId, q: NodeId)
    requires MayTell(s, l, q) && At(s.nodes[l].nextIndex, q) > 0
  {
    var cfg, y, x, next := Cfg(s, l), s.nodes[l], s.nodes[q], At(s.nodes[l].nextIndex, q);
    && s'.nodes.Keys == s.nodes.Keys && (forall n :: n in s.nodes && n != l && n != q ==> s'.nodes[n] == s.nodes[n])
    && var y', x' := s'.nodes[l], s'.nodes[q];
    && StillLeads(y, y') && KnowsAsMuch(y, y') && x'.currentTerm == y.currentTerm && x'.snapIndex == x.snapIndex
    && if Accepts(cfg, y, x, q, next)
       then && Agree(x'.log, y.log, |y.log|) && At(y'.matchIndex, q) >= |y.log| && x'.commitIndex >= y.commitIndex
       else SameHoldings(x, x') && y' == y.(nextIndex := y.nextIndex[q := Retry(cfg, y, x, q, next)])
  }

  lemma RoundIs(s: Cluster, s': Cluster, l: NodeId, q: NodeId, req: AppendRequest, x': NodeState, resp: AppendResponse)
    requires MayTell(s, l, q) && q in s.nodes[l].nextIndex && 0 < At(s.nodes[l].nextIndex, q) <= |s.nodes[l].log| + 1
    requires req == BuildAppend(Cfg(s, l), s.nodes[l], q) && (x', resp) == HandleAppendEntries(s.nodes[q], req)
    requires resp.success ==>
               Agree(x'.log, s.nodes[l].log, |s.nodes[l].log|) && x'.commitIndex >= s.nodes[l].commitIndex
    requires BothMoved(s, s', q, x', l, HandleAppendResponse(Cfg(s, l), s.nodes[l], q, req, resp))
    ensures Rounded(s, s', l, q)
  {
    var cfg, y, x := Cfg(s, l), s.nodes[l], s.nodes[q];
    AttemptNow(cfg, y, q);
    BuiltReachesEnd(cfg, y, q);
    RefusalHolds(x, req);
    if resp.success {
      AcceptedLeads(cfg, y, q, req, resp);
    } else {
      RejectedLeads(cfg, y, q, req, resp);
    }
  }

  lemma Round(past: seq<Cluster>, run: seq<Cluster>, s: Cluster, l: NodeId, q: NodeId)
      returns (run': seq<Cluster>, s': Cluster)
    requires IsRun(past) && Continues(past, run, s) && MayTell(s, l, q)
    ensures At(s.nodes[l].nextIndex, q) > 0 && Continues(past, run', s') && Rounded(s, s', l, q)
  {
    NextInRange(past, run, s, l, q);
    var req := BuildAppend(Cfg(s, l), s.nodes[l], q);
    var (x', resp) := HandleAppendEntries(s.nodes[q], req);
    if resp.success {
      AcceptanceAgrees(past, run, s, l, q);
    }
    run', s' := AppendRound(past, run, s, l, q);
    RoundIs(s, s', l, q, req, x', resp);
  }

  /** Node q has the leader's whole log, and the leader knows. */
  ghost predicate CaughtUp(s: Cluster, l: NodeId, q: NodeId)
    requires l in s.nodes && q in s.nodes
  {
    var y, x := s.nodes[l], s.nodes[q];
    x.currentTerm == y.currentTerm && Agree(x.log, y.log, |y.log|) && At(y.matchIndex, q) >= |y.log|
  }

  /** Node l still leads, and of the others only these may have changed; none has compacted its log. */
  ghost predicate OnlyTold(s: Cluster, s': Cluster, l: NodeId, told: set<NodeId>)
    requires l in s.nodes
  {
    && s'.nodes.Keys == s.nodes.Keys && StillLeads(s.nodes[l], s'.nodes[l]) && KnowsAsMuch(s.nodes[l], s'.nodes[l])
    && (forall n :: n in s.nodes && n != l && n !in told ==> s'.nodes[n] == s.nodes[n])
    && (forall n :: n in s.nodes ==> s'.nodes[n].snapIndex == s.nodes[n].snapIndex)
  }

  lemma OnlyToldOn(s: Cluster, m: Cluster, s': Cluster, l: NodeId, a: set<NodeId>, b: set<NodeId>)
    requires l in s.nodes && OnlyTold(s, m, l, a) && l in m.nodes && OnlyTold(m, s', l, b)
    ensures OnlyTold(s, s', l, a + b)
  {
    forall p ensures At(s.nodes[l].matchIndex, p) <= At(s'.nodes[l].matchIndex, p) {
      assert At(s.nodes[l].matchIndex, p) <= At(m.nodes[l].matchIndex, p) <= At(s'.nodes[l].matchIndex, p);
    }
  }

  lemma RoundedTold(s: Cluster, s': Cluster, l: NodeId, q: NodeId)
    requires MayTell(s, l, q) && At(s.nodes[l].nextIndex, q) > 0 && Rounded(s, s', l, q)
    ensures OnlyTold(s, s', l, {q}) && MayTell(s', l, q) && Cfg(s', l) == Cfg(s, l)
    ensures Accepts(Cfg(s, l), s.nodes[l], s.nodes[q], q, At(s.nodes[l].nextIndex, q)) ==> CaughtUp(s', l, q)
  {
  }

  lemma RefusedMirrors(s: Cluster, s': Cluster, l: NodeId, q: NodeId, accepted: nat -> bool, retry: nat -> nat)
    requires MayTell(s, l, q) && At(s.nodes[l].nextIndex, q) > 0 && Rounded(s, s', l, q)
    requires Mirrors(Cfg(s, l), s.nodes[l], s.nodes[q], q, accepted, retry) && !accepted(At(s.nodes[l].nextIndex, q))
    ensures Mirrors(Cfg(s, l), s'.nodes[l], s'.nodes[q], q, accepted, retry)
    ensures At(s'.nodes[l].nextIndex, q) == retry(At(s.nodes[l].nextIndex, q))
  {
    var next := At(s.nodes[l].nextIndex, q);
    MirrorsOn(Cfg(s, l), s.nodes[l], s'.nodes[l], s.nodes[q], s'.nodes[q], q,
              Retry(Cfg(s, l), s.nodes[l], s.nodes[q], q, next), accepted, retry);
  }

  /** Round by round, until the follower accepts. */
  lemma {:induction false} Negotiates(past: seq<Cluster>, run: seq<Cluster>, s: Cluster, l: NodeId, q: NodeId,
                                      accepted: nat -> bool, retry: nat -> nat, k: nat)
      returns (run': seq<Cluster>, s': Cluster)
    requires IsRun(past) && Continues(past, run, s) && MayTell(s, l, q)
    requires Mirrors(Cfg(s, l), s.nodes[l], s.nodes[q], q, accepted, retry)
    requires EndsIn(accepted, retry, At(s.nodes[l].nextIndex, q), k)
    ensures Continues(past, run', s') && OnlyTold(s, s', l, {q}) && CaughtUp(s', l, q)
    decreases k
  {
    var next := At(s.nodes[l].nextIndex, q);
    var run1, s1 := Round(past, run, s, l, q);
    RoundedTold(s, s1, l, q);
    run', s' := run1, s1;
    if !accepted(next) {
      RefusedMirrors(s, s1, l, q, accepted, retry);
      run', s' := Negotiates(past, run1, s1, l, q, accepted, retry, k - 1);
      OnlyToldOn(s, s1, s', l, {q}, {q});
    }
  }

  lemma LogsInTouch(past: seq<Cluster>, run: seq<Cluster>, s: Cluster, l: NodeId, q: NodeId)
    requires IsRun(past) && Continues(past, run, s) && MayTell(s, l, q) && s.nodes[q].snapIndex == 0
    ensures InTouch(s.core.termLog, s.nodes[l], s.nodes[q].(currentTerm := s.nodes[l].currentTerm))
  {
    ContinuesRun(past, run, s);
    RunIsOrderly(run, |run| - 1);
    GrowsReflexive(s.core);
    LogIsCoherent(run, |run| - 1, s.core, l);
    LogIsCoherent(run, |run| - 1, s.core, q);
  }

  lemma SearchMirrors(cfg: Config, y: NodeState, x: NodeState, q: NodeId)
    requires x.currentTerm <= y.currentTerm && q in y.nextIndex
    ensures var z := x.(currentTerm := y.currentTerm);
            Mirrors(cfg, y, x, q, AcceptedAt(cfg, y, z, q), RetriedAt(cfg, y, z, q))
  {
    var z := x.(currentTerm := y.currentTerm);
    assert y == y.(nextIndex := y.nextIndex[q := y.nextIndex[q]]);
    forall n: nat | n > y.snapIndex
      ensures AcceptedAt(cfg, y, z, q)(n) == Accepts(cfg, y, x, q, n)
      ensures RetriedAt(cfg, y, z, q)(n) == Retry(cfg, y, x, q, n)
    {
      MirrorsOne(cfg, y, y, z, x, q, y.nextIndex[q], n);
    }
  }

  /** Whatever the leader takes a follower to have, in the end the follower has all the leader has. */
  lemma CatchesUp(past: seq<Cluster>, run: seq<Cluster>, s: Cluster, l: NodeId, q: NodeId)
      returns (run': seq<Cluster>, s': Cluster)
    requires IsRun(past) && Continues(past, run, s) && MayTell(s, l, q) && s.nodes[q].snapIndex == 0
    ensures Continues(past, run', s') && OnlyTold(s, s', l, {q}) && CaughtUp(s', l, q)
  {
    var cfg, y := Cfg(s, l), s.nodes[l];
    var z, next := s.nodes[q].(currentTerm := y.currentTerm), At(y.nextIndex, q);
    NextInRange(past, run, s, l, q);
    LogsInTouch(past, run, s, l, q);
    EndsFast(cfg, s.core.termLog, y, z, q, next);
    SearchMirrors(cfg, y, s.nodes[q], q);
    run', s' := Negotiates(past, run, s, l, q, AcceptedAt(cfg, y, z, q), RetriedAt(cfg, y, z, q),
                           |TermsUpTo(z.log, LastTerm(z.log))| + 1);
  }

  // ---------------------------------------------------------------- all of the majority

  /** Node l may tell all of these, and none of them has compacted its log. */
  ghost predicate MayTellAll(s: Cluster, l: NodeId, rest: set<NodeId>) {
    && l in s.nodes && s.nodes[l].role == Leader && s.nodes[l].snapIndex == 0
    && forall q :: q in rest ==> MayTell(s, l, q) && s.nodes[q].snapIndex == 0
  }

  lemma MayTellRest(s: Cluster, s': Cluster, l: NodeId, rest: set<NodeId>, q: NodeId)
    requires MayTellAll(s, l, rest) && q in rest && OnlyTold(s, s', l, {q})
    ensures MayTellAll(s', l, rest - {q})
  {
  }

  lemma StaysCaughtUp(s: Cluster, s': Cluster, l: NodeId, told: set<NodeId>, q: NodeId)
    requires l in s.nodes && q in s.nodes && q != l && q !in told && CaughtUp(s, l, q) && OnlyTold(s, s', l, told)
    ensures CaughtUp(s', l, q) && s'.nodes[q] == s.nodes[q]
  {
    assert At(s.nodes[l].matchIndex, q) <= At(s'.nodes[l].matchIndex, q);
  }

  lemma {:induction false} AllCatchUp(past: seq<Cluster>, run: seq<Cluster>, s: Cluster, l: NodeId, rest: set<NodeId>)
      returns (run': seq<Cluster>, s': Cluster)
    requires IsRun(past) && Continues(past, run, s) && MayTellAll(s, l, rest)
    ensures Continues(past, run', s') && OnlyTold(s, s', l, rest)
    ensures forall q :: q in rest ==> q in s'.nodes && CaughtUp(s', l, q)
    decreases rest
  {
    run', s' := run, s;
    if rest != {} {
      var q :| q in rest;
      var run1, s1 := CatchesUp(past, run, s, l, q);
      MayTellRest(s, s1, l, rest, q);
      run', s' := AllCatchUp(past, run1, s1, l, rest - {q});
      OnlyToldOn(s, s1, s', l, {q}, rest - {q});
      assert {q} + (rest - {q}) == rest;
      StaysCaughtUp(s1, s', l, rest - {q}, q);
    }
  }

  /** One that has caught up accepts whatever round comes next. */
  lemma CaughtUpAccepts(s: Cluster, l: NodeId, q: NodeId, next: nat)
    requires MayTell(s, l, q) && s.nodes[q].snapIndex == 0 && CaughtUp(s, l, q)
    requires 0 < next <= |s.nodes[l].log| + 1
    ensures Accepts(Cfg(s, l), s.nodes[l], s.nodes[q], q, next)
  {
    AcceptsIff(Cfg(s, l), s.nodes[l], s.nodes[q], q, next);
  }

  /** Node q has committed all the leader has. */
  lemma LearnsCommit(past: seq<Cluster>, run: seq<Cluster>, s: Cluster, l: NodeId, q: NodeId)
      returns (run': seq<Cluster>, s': Cluster)
    requires IsRun(past) && Continues(past, run, s)
    requires MayTell(s, l, q) && s.nodes[q].snapIndex == 0 && CaughtUp(s, l, q)
    ensures Continues(past, run', s') && OnlyTold(s, s', l, {q}) && CaughtUp(s', l, q)
    ensures s'.nodes[q].commitIndex >= s.nodes[l].commitIndex
  {
    NextInRange(past, run, s, l, q);
    CaughtUpAccepts(s, l, q, At(s.nodes[l].nextIndex, q));
    run', s' := Round(past, run, s, l, q);
    RoundedTold(s, s', l, q);
  }

  lemma {:induction false} AllCommit(past: seq<Cluster>, run: seq<Cluster>, s: Cluster, l: NodeId, rest: set<NodeId>)
      returns (run': seq<Cluster>, s': Cluster)
    requires IsRun(past) && Continues(past, run, s) && MayTellAll(s, l, rest)
    requires forall q :: q in rest ==> CaughtUp(s, l, q)
    ensures Continues(past, run', s') && OnlyTold(s, s', l, rest)
    ensures forall q :: q in rest ==>
              q in s'.nodes && CaughtUp(s', l, q) && s'.nodes[q].commitIndex >= s.nodes[l].commitIndex
    decreases rest
  {
    run', s' := run, s;
    if rest != {} {
      var q :| q in rest;
      var run1, s1 := LearnsCommit(past, run, s, l, q);
      MayTellRest(s, s1, l, rest, q);
      forall p | p in rest - {q} ensures CaughtUp(s1, l, p) {
        StaysCaughtUp(s, s1, l, {q}, p);
      }
      run', s' := AllCommit(past, run1, s1, l, rest - {q});
      OnlyToldOn(s, s1, s', l, {q}, rest - {q});
      assert {q} + (rest - {q}) == rest;
      StaysCaughtUp(s1, s', l, rest - {q}, q);
    }
  }

  /** What a majority has caught up with, in the leader's term, the leader has committed. */
  lemma MajorityCommits(past: seq<Cluster>, run: seq<Cluster>, s: Cluster, l: NodeId, group: set<NodeId>)
    requires IsRun(past) && Continues(past, run, s) && Majority(s, group) && l in group && s.nodes[l].role == Leader
    requires forall q :: q in group && q != l ==> CaughtUp(s, l, q)
    requires s.nodes[l].log != [] && LastTerm(s.nodes[l].log) == s.nodes[l].currentTerm
    ensures s.nodes[l].commitIndex >= |s.nodes[l].log|
  {
    var cfg, y := Cfg(s, l), s.nodes[l];
    ContinuesRun(past, run, s);
    assert group - {l} <= Holders(cfg, y, |y.log|);
    SubsetSize(group - {l}, Holders(cfg, y, |y.log|));
    assert |group - {l}| == |group| - 1 && |cfg.peers| == |s.nodes| - 1;
    LeaderCommitsAllDue(run, |run| - 1, l, |y.log|);
  }

  // ---------------------------------------------------------------- serving

  /** With the leader's log ends that of any node that has all of it: nothing can come behind in the same term. */
  lemma NothingBehind(termLog: map<nat, seq<Entry>>, log: seq<Entry>, t: nat, leaderLog: seq<Entry>)
    requires Orderly(termLog) && t in termLog && termLog[t] == leaderLog && Coherent(termLog, log) && Bounded(log, t)
    requires Agree(log, leaderLog, |leaderLog|) && leaderLog != [] && LastTerm(leaderLog) == t
    ensures log == leaderLog
  {
    var n := |leaderLog|;
    if |log| > n {
      assert CoherentAt(termLog, log, n);
      TermsRise(termLog, log, n, n + 1);
    }
  }

  lemma HasLeadersLog(past: seq<Cluster>, run: seq<Cluster>, s: Cluster, l: NodeId, q: NodeId)
    requires IsRun(past) && Continues(past, run, s) && l in s.nodes && q in s.nodes && s.nodes[l].role == Leader
    requires q == l || CaughtUp(s, l, q)
    requires s.nodes[l].log != [] && LastTerm(s.nodes[l].log) == s.nodes[l].currentTerm
    ensures s.nodes[q].log == s.nodes[l].log && s.nodes[q].commitIndex <= |s.nodes[l].log|
  {
    ContinuesRun(past, run, s);
    RunIsGood(run, |run| - 1);
    NodeFacts(s, q);
    if q != l {
      RunIsOrderly(run, |run| - 1);
      LeaderLogIs(past, run, s, l);
      assert Bounded(s.core.peers[q].log, s.core.peers[q].term) && Coherent(s.core.termLog, s.core.peers[q].log);
      NothingBehind(s.core.termLog, s.nodes[q].log, s.nodes[l].currentTerm, s.nodes[l].log);
    }
  }

  /** Node l leads the group; all of it have its log, and have committed all of it. */
  ghost predicate Served(s: Cluster, l: NodeId, group: set<NodeId>) {
    && Leading(s, l, group) && Uncompacted(s, group)
    && forall q :: q in group ==> s.nodes[q].log == s.nodes[l].log && s.nodes[q].commitIndex == |s.nodes[l].log|
  }

  lemma ProposeIs(cfg: Config, y: NodeState, data: Bytes)
    requires y.role == Leader
    ensures var y' := Propose(cfg, y, data);
            && y'.role == Leader && y'.currentTerm == y.currentTerm && y'.snapIndex == y.snapIndex
            && y'.log == y.log + [Entry(|y.log| + 1, y.currentTerm, data)]
  {
  }

  lemma TakenIn(past: seq<Cluster>, run: seq<Cluster>, s: Cluster, l: NodeId, group: set<NodeId>, data: Bytes)
      returns (run': seq<Cluster>, s': Cluster)
    requires IsRun(past) && Continues(past, run, s)
    requires Majority(s, group) && Leading(s, l, group) && Uncompacted(s, group)
    ensures Continues(past, run', s') && s'.nodes.Keys == s.nodes.Keys && MayTellAll(s', l, group - {l})
    ensures s'.nodes[l].currentTerm == s.nodes[l].currentTerm
    ensures s'.nodes[l].log == s.nodes[l].log + [Entry(|s.nodes[l].log| + 1, s.nodes[l].currentTerm, data)]
  {
    ProposeIs(Cfg(s, l), s.nodes[l], data);
    run', s' := IsAsked(past, run, s, l, data);
  }

  lemma IsServed(past: seq<Cluster>, run: seq<Cluster>, s: Cluster, l: NodeId, group: set<NodeId>)
    requires IsRun(past) && Continues(past, run, s) && l in group && MayTellAll(s, l, group - {l})
    requires s.nodes[l].log != [] && LastTerm(s.nodes[l].log) == s.nodes[l].currentTerm
    requires s.nodes[l].commitIndex >= |s.nodes[l].log|
    requires forall q :: q in group - {l} ==> CaughtUp(s, l, q) && s.nodes[q].commitIndex >= |s.nodes[l].log|
    ensures Served(s, l, group)
  {
    forall q | q in group
      ensures q in s.nodes && s.nodes[q].currentTerm <= s.nodes[l].currentTerm && s.nodes[q].snapIndex == 0
      ensures s.nodes[q].log == s.nodes[l].log && s.nodes[q].commitIndex == |s.nodes[l].log|
    {
      assert q == l || q in group - {l};
      HasLeadersLog(past, run, s, l, q);
    }
  }

  lemma ToldMayBeTold(s: Cluster, s': Cluster, l: NodeId, rest: set<NodeId>)
    requires MayTellAll(s, l, rest) && OnlyTold(s, s', l, rest) && forall q :: q in rest ==> CaughtUp(s', l, q)
    ensures MayTellAll(s', l, rest)
  {
  }

  /** What the leader of a majority is asked for is committed by all of the majority. */
  lemma ServesOne(past: seq<Cluster>, run: seq<Cluster>, s: Cluster, l: NodeId, group: set<NodeId>, data: Bytes)
      returns (run': seq<Cluster>, s': Cluster)
    requires IsRun(past) && Continues(past, run, s)
    requires Majority(s, group) && Leading(s, l, group) && Uncompacted(s, group)
    ensures Continues(past, run', s') && Majority(s', group) && Served(s', l, group)
    ensures s'.nodes[l].currentTerm == s.nodes[l].currentTerm
    ensures s'.nodes[l].log == s.nodes[l].log + [Entry(|s.nodes[l].log| + 1, s.nodes[l].currentTerm, data)]
  {
    var rest := group - {l};
    var run1, s1 := TakenIn(past, run, s, l, group, data);
    var run2, s2 := AllCatchUp(past, run1, s1, l, rest);
    ToldMayBeTold(s1, s2, l, rest);
    MajorityCommits(past, run2, s2, l, group);
    run', s' := AllCommit(past, run2, s2, l, rest);
    ToldMayBeTold(s2, s', l, rest);
    IsServed(past, run', s', l, group);
  }

  /** The entries a leader of term t makes of these writes, behind the first n. */
  function Asked(n: nat, t: nat, writes: seq<Bytes>): seq<Entry> {
    seq(|writes|, i requires 0 <= i < |writes| => Entry(n + i + 1, t, writes[i]))
  }

  lemma AskedMore(n: nat, t: nat, writes: seq<Bytes>, log: seq<Entry>)
    requires writes != [] && |log| == n
    ensures var k := |writes| - 1;
            log + Asked(n, t, writes) == (log + Asked(n, t, writes[..k])) + [Entry(n + k + 1, t, writes[k])]
  {
  }

  lemma {:induction false} ServesAll(past: seq<Cluster>, run: seq<Cluster>, s: Cluster, l: NodeId, group: set<NodeId>,
                                     writes: seq<Bytes>) returns (run': seq<Cluster>, s': Cluster)
    requires IsRun(past) && Continues(past, run, s)
    requires Majority(s, group) && Leading(s, l, group) && Uncompacted(s, group)
    ensures Continues(past, run', s') && Majority(s', group) && Leading(s', l, group) && Uncompacted(s', group)
    ensures writes != [] ==> Served(s', l, group)
    ensures s'.nodes[l].currentTerm == s.nodes[l].currentTerm
    ensures s'.nodes[l].log == s.nodes[l].log + Asked(|s.nodes[l].log|, s.nodes[l].currentTerm, writes)
  {
    run', s' := run, s;
    if writes != [] {
      var k := |writes| - 1;
      var run1, s1 := ServesAll(past, run, s, l, group, writes[..k]);
      run', s' := ServesOne(past, run1, s1, l, group, writes[k]);
      AskedMore(|s.nodes[l].log|, s.nodes[l].currentTerm, writes, s.nodes[l].log);
    }
  }

  /**
   No dead ends: every run goes on, whatever its last state, so that one of any majority of nodes that have not
   compacted their logs leads it, all of the majority have that node's log with any given writes behind it, and have
   committed all of it. The other nodes need not take part.
   */
  lemma AnyMajorityServes(run: seq<Cluster>, group: set<NodeId>, writes: seq<Bytes>)
      returns (run': seq<Cluster>, s: Cluster, l: NodeId)
    requires IsRun(run) && Majority(run[|run| - 1], group) && Uncompacted(run[|run| - 1], group) && writes != []
    ensures IsRun(run') && Continues(run, run', s) && Served(s, l, group)
    ensures var log := run[|run| - 1].nodes[l].log;
            s.nodes[l].log == log + Asked(|log|, s.nodes[l].currentTerm, writes)
  {
    var s0 := run[|run| - 1];
    var run1, s1;
    run1, s1, l := SomeoneLeads(run, run, s0, group);
    assert SameHoldings(s0.nodes[l], s1.nodes[l]);
    run', s := ServesAll(run, run1, s1, l, group, writes);
    ContinuesRun(run, run', s);
  }
}
