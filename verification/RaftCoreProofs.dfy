/** The protocol's invariant: each action keeps it, and leader completeness follows from it. */
module RaftCoreProofs {

  import opened RaftTypes
  import opened RaftCore

  /** Any two quorums share a node. */
  lemma QuorumsMeet(servers: set<NodeId>, a: set<NodeId>, b: set<NodeId>) returns (v: NodeId)
    requires IsQuorum(servers, a) && IsQuorum(servers, b)
    ensures v in a && v in b
  {
    if a * b == {} {
      assert |a + b| == |a| + |b|;
      SubsetSize(a + b, servers);
      assert false;
    }
    v :| v in a * b;
  }

  lemma {:induction false} SubsetSize<T>(a: set<T>, b: set<T>)
    requires a <= b
    ensures |a| <= |b|
  {
    if a != {} {
      var x :| x in a;
      SubsetSize(a - {x}, b - {x});
    }
  }

  // ---------------------------------------------------------------- what only grows

  ghost predicate LogsGrow(old': map<nat, seq<Entry>>, new': map<nat, seq<Entry>>) {
    forall t :: t in old' ==> t in new' && Agree(new'[t], old'[t], |old'[t]|)
  }

  /** Terms, ballots, elections, leaders' logs and acknowledgements are never taken back. */
  ghost predicate Grows(c: Core, c': Core) {
    && c'.servers == c.servers && c'.peers.Keys == c.peers.Keys
    && (forall n :: n in c.peers ==> c.peers[n].term <= c'.peers[n].term)
    && (forall sl :: sl in c.ballots ==> sl in c'.ballots && c'.ballots[sl] == c.ballots[sl])
    && (forall t :: t in c.elections ==> t in c'.elections && c'.elections[t] == c.elections[t])
    && LogsGrow(c.termLog, c'.termLog)
    && (forall sl :: sl in c.acked ==> sl in c'.acked && c.acked[sl] <= c'.acked[sl])
  }

  lemma CommittedGrows(c: Core, c': Core, t: nat, i: nat)
    requires Grows(c, c') && Committed(c, t, i)
    ensures Committed(c', t, i)
  {
    assert Ackers(c, t, i) <= Ackers(c', t, i);
    SubsetSize(Ackers(c, t, i), Ackers(c', t, i));
  }

  lemma CommittedUpToGrows(c: Core, c': Core, log: seq<Entry>, log': seq<Entry>, k: nat, bound: nat, bound': nat)
    requires Grows(c, c') && bound <= bound' && CommittedUpTo(c, log, k, bound) && Agree(log', log, k)
    ensures CommittedUpTo(c', log', k, bound')
  {
    if k != 0 {
      var t: nat, i: nat :| t <= bound && CommittedBy(c, log, k, t, i);
      CommittedGrows(c, c', t, i);
      assert CommittedBy(c', log', k, t, i);
    }
  }

  lemma CommittedUpToLess(c: Core, log: seq<Entry>, k: nat, less: nat, bound: nat)
    requires CommittedUpTo(c, log, k, bound) && less <= k
    ensures CommittedUpTo(c, log, less, bound)
  {
    if less != 0 {
      var t: nat, i: nat :| t <= bound && CommittedBy(c, log, k, t, i);
      assert CommittedBy(c, log, less, t, i);
    }
  }

  // ---------------------------------------------------------------- leader completeness

  /** A committed prefix is in the log of every leader of every later term, from its election on. */
  lemma {:induction false} LeaderCompleteness(c: Core, t: nat, i: nat, u: nat)
    requires Shape(c) && ElectionsOk(c) && LogsOk(c) && AcksOk(c) && AcksVoted(c)
    requires Committed(c, t, i) && u in c.termLog && t < u
    ensures Agree(c.elections[u].log, c.termLog[t], i) && Agree(c.termLog[u], c.termLog[t], i)
    decreases u
  {
    forall w | w in c.termLog && t < w < u ensures Agree(c.termLog[w], c.termLog[t], i) {
      LeaderCompleteness(c, t, i, w);
    }
    var voted := VoterHolds(c, t, i, u);
    assert ElectionOk(c, u);
    WinnerHolds(c.termLog, t, i, u, c.elections[u].log, voted);
  }

  /** Some voter of the later leader had confirmed the committed prefix, and still held it when it voted. */
  lemma VoterHolds(c: Core, t: nat, i: nat, u: nat) returns (voted: seq<Entry>)
    requires Shape(c) && ElectionsOk(c) && LogsOk(c) && AcksOk(c) && AcksVoted(c)
    requires Committed(c, t, i) && u in c.termLog && t < u
    requires forall w :: w in c.termLog && t < w < u ==> Agree(c.termLog[w], c.termLog[t], i)
    ensures Coherent(c.termLog, voted) && Agree(voted, c.termLog[t], i)
    ensures var e := c.elections[u]; UpToDate(|e.log|, LastTerm(e.log), voted)
  {
    var e := c.elections[u];
    assert ElectionOk(c, u);
    var v := QuorumsMeet(c.servers, Ackers(c, t, i), e.voters);
    assert UnchallengedAtVote(c, t, i, v, u);
    assert SlotVoted(c, Slot(v, t), u) && AckVoted(c, Slot(v, t), u, i);
    voted := c.ballots[Slot(v, u)].log;
  }

  /** The winner's log is at least as up to date as one that holds the committed prefix, so it holds it too. */
  lemma WinnerHolds(termLog: map<nat, seq<Entry>>, t: nat, i: nat, u: nat, start: seq<Entry>, voted: seq<Entry>)
    requires TermLogsOk(termLog) && t in termLog && 0 < i <= |termLog[t]| && termLog[t][i - 1].term == t
    requires u in termLog && Agree(start, termLog[u], |start|) && forall k :: 0 <= k < |start| ==> start[k].term < u
    requires forall w :: w in termLog && t < w < u ==> Agree(termLog[w], termLog[t], i)
    requires Coherent(termLog, voted) && Agree(voted, termLog[t], i)
    requires UpToDate(|start|, LastTerm(start), voted)
    ensures Agree(start, termLog[t], i) && Agree(termLog[u], termLog[t], i)
  {
    LastTermAtLeast(termLog, voted, i - 1);
    var last := LastTerm(start);
    assert start != [] && start[|start| - 1] == termLog[u][|start| - 1];
    assert Coherent(termLog, termLog[u]) && CoherentAt(termLog, termLog[u], |start| - 1);
    if last == LastTerm(voted) {
      assert CoherentAt(termLog, voted, |voted| - 1);
    } else {
      assert t < last < u;
      assert Bounded(termLog[t], t);
      assert |start| >= i;
    }
  }

  /** Terms never decrease along a coherent log. */
  lemma LastTermAtLeast(termLog: map<nat, seq<Entry>>, log: seq<Entry>, k: nat)
    requires TermLogsOk(termLog) && Coherent(termLog, log) && k < |log|
    ensures log[k].term <= LastTerm(log)
  {
    var last := |log| - 1;
    assert CoherentAt(termLog, log, last);
    assert Bounded(termLog[log[last].term], log[last].term);
    assert log[k] == termLog[log[last].term][k];
  }

  ghost predicate Complete(c: Core) {
    forall t: nat, i: nat, u: nat :: u in c.termLog && t < u && Committed(c, t, i)
      ==> Agree(c.termLog[u], c.termLog[t], i)
  }

  /** Leader completeness, for all terms and indexes at once. */
  lemma LeadersComplete(c: Core)
    requires Shape(c) && ElectionsOk(c) && LogsOk(c) && AcksOk(c) && AcksVoted(c)
    ensures Complete(c)
  {
    forall t: nat, i: nat, u: nat | u in c.termLog && t < u && Committed(c, t, i)
      ensures Agree(c.termLog[u], c.termLog[t], i)
    {
      LeaderCompleteness(c, t, i, u);
    }
  }

  // ---------------------------------------------------------------- what growth carries along

  lemma ElectionCarries(c: Core, c': Core, t: nat)
    requires Grows(c, c') && t in c.elections && ElectionOk(c, t)
    ensures ElectionOk(c', t)
  {
  }

  lemma ElectionsCarry(c: Core, c': Core)
    requires ElectionsOk(c) && Grows(c, c')
    requires forall t :: t in c'.elections ==> t in c.elections || ElectionOk(c', t)
    ensures ElectionsOk(c')
  {
    forall t | t in c'.elections ensures ElectionOk(c', t) {
      if t in c.elections {
        ElectionCarries(c, c', t);
      }
    }
  }

  lemma CoherentCarries(small: map<nat, seq<Entry>>, big: map<nat, seq<Entry>>, log: seq<Entry>)
    requires LogsGrow(small, big) && Coherent(small, log)
    ensures Coherent(big, log)
  {
    forall k: nat | k < |log| ensures CoherentAt(big, log, k) {
      assert CoherentAt(small, log, k);
    }
  }

  lemma NoConflictShrinks(a': seq<Entry>, a: seq<Entry>, b': seq<Entry>, b: seq<Entry>, i: nat)
    requires Agree(a', a, |a|) && Agree(b', b, |b|) && NoConflict(a', b', i)
    ensures NoConflict(a, b, i)
  {
  }

  ghost predicate Extends(log': seq<Entry>, log: seq<Entry>) { Agree(log', log, |log|) }

  /** An acknowledged prefix survives any growth that only extends the node's log. */
  lemma AckHeldCarries(c: Core, c': Core, sl: Slot, i: nat)
    requires AcksOk(c) && AcksOk(c') && Grows(c, c') && sl in c.acked && i <= c.acked[sl] && AckHeld(c, sl, i)
    requires Extends(c'.peers[sl.node].log, c.peers[sl.node].log)
    ensures AckHeld(c', sl, i)
  {
    if Unchallenged(c', sl.term, i, c'.peers[sl.node].term) {
      forall w | w in c.termLog && sl.term < w <= c.peers[sl.node].term
        ensures NoConflict(c.termLog[w], c.termLog[sl.term], i)
      {
        NoConflictShrinks(c'.termLog[w], c.termLog[w], c'.termLog[sl.term], c.termLog[sl.term], i);
      }
    }
  }

  lemma AcksHeldCarry(c: Core, c': Core)
    requires AcksOk(c) && AcksHeld(c) && AcksOk(c') && Grows(c, c')
    requires forall sl :: sl in c'.acked ==>
               || SlotHeld(c', sl)
               || (sl in c.acked && c'.acked[sl] == c.acked[sl]
                   && Extends(c'.peers[sl.node].log, c.peers[sl.node].log))
    ensures AcksHeld(c')
  {
    forall sl | sl in c'.acked ensures SlotHeld(c', sl) {
      if !SlotHeld(c', sl) {
        assert SlotHeld(c, sl);
        forall i: nat | i <= c'.acked[sl] ensures AckHeld(c', sl, i) {
          AckHeldCarries(c, c', sl, i);
        }
      }
    }
  }

  lemma AckVotedCarries(c: Core, c': Core, sl: Slot, u: nat, i: nat)
    requires AcksOk(c) && AcksOk(c') && Grows(c, c') && Shape(c)
    requires sl in c.acked && i <= c.acked[sl] && Slot(sl.node, u) in c.ballots && AckVoted(c, sl, u, i)
    ensures AckVoted(c', sl, u, i)
  {
    if UnchallengedAtVote(c', sl.term, i, sl.node, u) {
      forall w | w in c.termLog && sl.term < w <= u && !(w == u && w in c.elections && sl.node in c.elections[w].voters)
        ensures NoConflict(c.termLog[w], c.termLog[sl.term], i)
      {
        NoConflictShrinks(c'.termLog[w], c.termLog[w], c'.termLog[sl.term], c.termLog[sl.term], i);
      }
    }
  }

  /** Nobody acknowledges a term it has voted beyond, so old ballots keep respecting all acknowledgements. */
  lemma AcksVotedCarry(c: Core, c': Core)
    requires BallotsOk(c) && AcksOk(c) && AcksOk(c') && AcksVoted(c) && Grows(c, c') && Shape(c)
    requires forall sl, u: nat :: sl in c'.acked && sl.term < u && Slot(sl.node, u) in c'.ballots ==>
               Slot(sl.node, u) in c.ballots || SlotVoted(c', sl, u)
    requires forall sl :: sl in c'.acked ==>
               (sl in c.acked && c'.acked[sl] == c.acked[sl]) || c.peers[sl.node].term <= sl.term
    ensures AcksVoted(c')
  {
    forall sl, u: nat | sl in c'.acked && sl.term < u && Slot(sl.node, u) in c'.ballots ensures SlotVoted(c', sl, u) {
      if Slot(sl.node, u) in c.ballots {
        assert sl in c.acked && c'.acked[sl] == c.acked[sl];
        assert SlotVoted(c, sl, u);
        forall i: nat | i <= c'.acked[sl] ensures AckVoted(c', sl, u, i) {
          assert AckVoted(c, sl, u, i);
          AckVotedCarries(c, c', sl, u, i);
        }
      }
    }
  }

  lemma CommitsCarry(c: Core, c': Core)
    requires CommitsOk(c) && Grows(c, c')
    requires forall m :: m in c.peers ==>
               && c'.peers[m].commit == c.peers[m].commit
               && (Extends(c'.peers[m].log, c.peers[m].log)
                || Agree(c'.peers[m].log, c.peers[m].log, c.peers[m].commit))
    ensures CommitsOk(c')
  {
    forall m | m in c'.peers
      ensures CommittedUpTo(c', c'.peers[m].log, c'.peers[m].commit, c'.peers[m].term)
    {
      var p, p' := c.peers[m], c'.peers[m];
      assert CommittedUpTo(c, p.log, p.commit, p.term);
      CommittedUpToGrows(c, c', p.log, p'.log, p.commit, p.term, p'.term);
    }
  }

  // ---------------------------------------------------------------- every action keeps the invariant

  /** Nothing but the term or the commit index of a peer moves. */
  ghost predicate OnlyPeersMove(c: Core, c': Core) {
    && Grows(c, c')
    && c'.ballots == c.ballots && c'.elections == c.elections && c'.termLog == c.termLog && c'.acked == c.acked
    && forall m :: m in c.peers ==> c'.peers[m].log == c.peers[m].log
  }

  lemma OnlyPeersMoveKeeps(c: Core, c': Core)
    requires Shape(c) && BallotsOk(c) && ElectionsOk(c) && AcksOk(c) && AcksHeld(c) && AcksVoted(c)
    requires OnlyPeersMove(c, c')
    ensures Shape(c') && BallotsOk(c') && ElectionsOk(c') && AcksOk(c') && AcksHeld(c') && AcksVoted(c')
  {
    ElectionsCarry(c, c');
    AcksHeldCarry(c, c');
    AcksVotedCarry(c, c');
  }

  lemma OnlyPeersMoveKeepsLogs(c: Core, c': Core)
    requires LogsOk(c) && OnlyPeersMove(c, c')
    ensures LogsOk(c')
  {
  }

  lemma BumpKeeps(c: Core, n: NodeId, t: nat)
    requires Inv(c) && CanBump(c, n, t)
    ensures Inv(Bump(c, n, t)) && Grows(c, Bump(c, n, t))
  {
    var c' := Bump(c, n, t);
    OnlyPeersMoveKeeps(c, c');
    OnlyPeersMoveKeepsLogs(c, c');
    CommitsCarry(c, c');
  }

  lemma CommitKeeps(c: Core, n: NodeId, k: nat)
    requires Inv(c) && CanCommit(c, n, k)
    ensures Inv(Commit(c, n, k)) && Grows(c, Commit(c, n, k))
  {
    var c' := Commit(c, n, k);
    OnlyPeersMoveKeeps(c, c');
    OnlyPeersMoveKeepsLogs(c, c');
    CommitMoveKeeps(c, n, k);
  }

  lemma CommitMoveKeeps(c: Core, n: NodeId, k: nat)
    requires CommitsOk(c) && CanCommit(c, n, k)
    ensures CommitsOk(Commit(c, n, k))
  {
    var c' := Commit(c, n, k);
    assert Grows(c, c');
    forall m | m in c'.peers
      ensures CommittedUpTo(c', c'.peers[m].log, c'.peers[m].commit, c'.peers[m].term)
    {
      var log := c.peers[m].log;
      var k := if m == n then k else c.peers[m].commit;
      assert CommittedUpTo(c, log, k, c.peers[m].term);
      CommittedUpToGrows(c, c', log, log, k, c.peers[m].term, c'.peers[m].term);
    }
  }

  lemma CastVoteKeeps(c: Core, n: NodeId, cand: NodeId)
    requires Inv(c) && CanCastVote(c, n)
    ensures Inv(CastVote(c, n, cand)) && Grows(c, CastVote(c, n, cand))
  {
    var c' := CastVote(c, n, cand);
    CastVoteGrows(c, n, cand);
    ElectionsCarry(c, c');
    AcksHeldCarry(c, c');
    CastVoteKeepsVoted(c, n, cand);
    CastVoteKeepsLogs(c, n, cand);
    CommitsCarry(c, c');
  }

  lemma CastVoteGrows(c: Core, n: NodeId, cand: NodeId)
    requires Shape(c) && AcksOk(c) && BallotsOk(c) && CanCastVote(c, n)
    ensures var c' := CastVote(c, n, cand); Grows(c, c') && Shape(c') && AcksOk(c') && BallotsOk(c')
  {
  }

  lemma CastVoteKeepsLogs(c: Core, n: NodeId, cand: NodeId)
    requires LogsOk(c) && CanCastVote(c, n)
    ensures LogsOk(CastVote(c, n, cand))
  {
  }

  lemma CastVoteKeepsVoted(c: Core, n: NodeId, cand: NodeId)
    requires Shape(c) && BallotsOk(c) && ElectionsOk(c) && AcksOk(c) && AcksHeld(c) && AcksVoted(c) && CanCastVote(c, n)
    ensures var c' := CastVote(c, n, cand); AcksOk(c') && AcksVoted(c')
  {
    var c' := CastVote(c, n, cand);
    CastVoteGrows(c, n, cand);
    forall sl, u: nat
      | sl in c'.acked && sl.term < u && Slot(sl.node, u) in c'.ballots && Slot(sl.node, u) !in c.ballots
      ensures SlotVoted(c', sl, u)
    {
      forall i: nat | i <= c'.acked[sl] ensures AckVoted(c', sl, u, i) {
        if UnchallengedAtVote(c', sl.term, i, sl.node, u) {
          assert UnchallengedAtVote(c, sl.term, i, sl.node, u);
          FreshBallotHolds(c, n, sl, i);
        }
      }
    }
    AcksVotedCarry(c, c');
  }

  /** At the moment of voting, the voter's log holds all it ever confirmed and nobody contradicted since. */
  lemma FreshBallotHolds(c: Core, n: NodeId, sl: Slot, i: nat)
    requires Shape(c) && ElectionsOk(c) && AcksOk(c) && AcksHeld(c) && CanCastVote(c, n)
    requires sl in c.acked && sl.node == n && i <= c.acked[sl]
    requires UnchallengedAtVote(c, sl.term, i, n, c.peers[n].term)
    ensures Agree(c.peers[n].log, c.termLog[sl.term], i)
  {
    var u := c.peers[n].term;
    if u in c.elections {
      assert ElectionOk(c, u);
    }
    assert Unchallenged(c, sl.term, i, u);
    assert SlotHeld(c, sl) && AckHeld(c, sl, i);
  }

  /** A second winner of the same term would need the vote of a node that already gave it away. */
  lemma ElectionIsFirst(c: Core, n: NodeId, q: set<NodeId>)
    requires Shape(c) && ElectionsOk(c) && CanElect(c, n, q)
    ensures c.peers[n].term !in c.elections && c.peers[n].term !in c.termLog
  {
    var t := c.peers[n].term;
    if t in c.elections {
      assert ElectionOk(c, t);
      var v := QuorumsMeet(c.servers, q, c.elections[t].voters);
      assert false;
    }
  }

  lemma ElectKeeps(c: Core, n: NodeId, q: set<NodeId>)
    requires Inv(c) && CanElect(c, n, q)
    ensures Inv(Elect(c, n, q)) && Grows(c, Elect(c, n, q))
    ensures c.peers[n].term !in c.elections
  {
    ElectionIsFirst(c, n, q);
    ElectGrows(c, n, q);
    ElectKeepsLogs(c, n, q);
    ElectKeepsElections(c, n, q);
    ElectKeepsAcks(c, n, q);
    CommitsCarry(c, Elect(c, n, q));
  }

  lemma ElectKeepsElections(c: Core, n: NodeId, q: set<NodeId>)
    requires ElectionsOk(c) && LogsOk(c) && CanElect(c, n, q) && c.peers[n].term !in c.termLog
    requires Grows(c, Elect(c, n, q))
    ensures ElectionsOk(Elect(c, n, q))
  {
    FreshElectionOk(c, n, q);
    ElectionsCarry(c, Elect(c, n, q));
  }

  lemma ElectKeepsAcks(c: Core, n: NodeId, q: set<NodeId>)
    requires Shape(c) && BallotsOk(c) && AcksOk(c) && AcksHeld(c) && AcksVoted(c) && CanElect(c, n, q)
    requires c.peers[n].term !in c.elections
    ensures var c' := Elect(c, n, q); BallotsOk(c') && AcksOk(c') && AcksHeld(c') && AcksVoted(c')
  {
    var c' := Elect(c, n, q);
    ElectGrows(c, n, q);
    assert SlotHeld(c', Slot(n, c.peers[n].term));
    AcksHeldCarry(c, c');
    AcksVotedCarry(c, c');
  }

  lemma ElectGrows(c: Core, n: NodeId, q: set<NodeId>)
    requires Shape(c) && AcksOk(c) && n in c.peers && c.peers[n].term !in c.elections
    ensures var c' := Elect(c, n, q);
            Grows(c, c') && AcksOk(c') && Shape(c') && Slot(n, c.peers[n].term) !in c.acked
  {
  }

  lemma ElectKeepsLogs(c: Core, n: NodeId, q: set<NodeId>)
    requires Shape(c) && LogsOk(c) && n in c.peers && c.peers[n].term !in c.termLog
    ensures LogsOk(Elect(c, n, q))
  {
    var c' := Elect(c, n, q);
    forall log | Coherent(c.termLog, log) ensures Coherent(c'.termLog, log) {
      CoherentCarries(c.termLog, c'.termLog, log);
    }
  }

  lemma FreshElectionOk(c: Core, n: NodeId, q: set<NodeId>)
    requires LogsOk(c) && CanElect(c, n, q) && c.peers[n].term !in c.termLog
    ensures ElectionOk(Elect(c, n, q), c.peers[n].term)
  {
    var p := c.peers[n];
    assert Coherent(c.termLog, p.log) && Bounded(p.log, p.term);
    forall k: nat | k < |p.log| ensures p.log[k].term < p.term {
      assert CoherentAt(c.termLog, p.log, k);
    }
  }

  lemma LeaderAppendKeeps(c: Core, n: NodeId, e: Entry)
    requires Inv(c) && CanLeaderAppend(c, n, e)
    ensures Inv(LeaderAppend(c, n, e)) && Grows(c, LeaderAppend(c, n, e))
  {
    var c' := LeaderAppend(c, n, e);
    LeaderAppendGrows(c, n, e);
    LeaderAppendKeepsLogs(c, n, e);
    ElectionsCarry(c, c');
    LeaderAppendKeepsAcks(c, n, e);
    LeaderAppendKeepsCommits(c, n, e);
  }

  lemma LeaderAppendKeepsCommits(c: Core, n: NodeId, e: Entry)
    requires CommitsOk(c) && n in c.peers && Grows(c, LeaderAppend(c, n, e))
    ensures CommitsOk(LeaderAppend(c, n, e))
  {
    CommitsCarry(c, LeaderAppend(c, n, e));
  }

  lemma LeaderAppendKeepsAcks(c: Core, n: NodeId, e: Entry)
    requires Shape(c) && BallotsOk(c) && AcksOk(c) && AcksHeld(c) && AcksVoted(c) && CanLeaderAppend(c, n, e)
    ensures var c' := LeaderAppend(c, n, e); BallotsOk(c') && AcksOk(c') && AcksHeld(c') && AcksVoted(c')
  {
    var c' := LeaderAppend(c, n, e);
    LeaderAppendGrows(c, n, e);
    assert SlotHeld(c', Slot(n, c.peers[n].term));
    AcksHeldCarry(c, c');
    AcksVotedCarry(c, c');
  }

  lemma LeaderAppendGrows(c: Core, n: NodeId, e: Entry)
    requires Shape(c) && AcksOk(c) && CanLeaderAppend(c, n, e)
    ensures var c' := LeaderAppend(c, n, e); Grows(c, c') && AcksOk(c') && Shape(c')
  {
  }

  lemma LeaderAppendKeepsLogs(c: Core, n: NodeId, e: Entry)
    requires LogsOk(c) && CanLeaderAppend(c, n, e)
    ensures LogsOk(LeaderAppend(c, n, e))
  {
    var c' := LeaderAppend(c, n, e);
    forall log | Coherent(c.termLog, log) ensures Coherent(c'.termLog, log) {
      CoherentCarries(c.termLog, c'.termLog, log);
    }
    var log' := c.peers[n].log + [e];
    forall k: nat | k < |log'| ensures CoherentAt(c'.termLog, log', k) {
      if k < |log'| - 1 {
        assert Coherent(c'.termLog, c.peers[n].log);
        assert CoherentAt(c'.termLog, c.peers[n].log, k);
      }
    }
  }

  lemma AcceptGrows(c: Core, n: NodeId, log': seq<Entry>, m: nat)
    requires Shape(c) && AcksOk(c) && CanAccept(c, n, log', m)
    ensures var c' := Accept(c, n, log', m); Grows(c, c') && AcksOk(c') && Shape(c')
  {
  }

  lemma AcceptKeepsLogs(c: Core, n: NodeId, log': seq<Entry>, m: nat)
    requires LogsOk(c) && CanAccept(c, n, log', m)
    ensures LogsOk(Accept(c, n, log', m))
  {
    if log' != c.peers[n].log {
      var leaderLog := c.termLog[c.peers[n].term];
      assert |log'| == m;
      assert Coherent(c.termLog, leaderLog);
      forall k: nat | k < |log'| ensures CoherentAt(c.termLog, log', k) {
        assert log'[k] == leaderLog[k];
        assert CoherentAt(c.termLog, leaderLog, k);
      }
    }
  }

  /** Whatever a node knows to be committed, the leader of its term has too. */
  lemma LeaderHoldsCommitted(c: Core, log: seq<Entry>, k: nat, t: nat)
    requires Complete(c) && CommittedUpTo(c, log, k, t) && t in c.termLog
    ensures Agree(log, c.termLog[t], k)
  {
    if k != 0 {
      var t0: nat, i: nat :| t0 <= t && CommittedBy(c, log, k, t0, i);
    }
  }

  lemma AcceptKeepsCommits(c: Core, n: NodeId, log': seq<Entry>, m: nat)
    requires Complete(c) && CommitsOk(c) && CanAccept(c, n, log', m) && Grows(c, Accept(c, n, log', m))
    ensures Agree(log', c.peers[n].log, c.peers[n].commit)
    ensures CommitsOk(Accept(c, n, log', m))
  {
    var p := c.peers[n];
    assert CommittedUpTo(c, p.log, p.commit, p.term);
    LeaderHoldsCommitted(c, p.log, p.commit, p.term);
    SpliceKeepsAgreement(p.log, c.termLog[p.term], m, log', p.log, p.commit);
    CommitsCarry(c, Accept(c, n, log', m));
  }

  /** Cutting at a difference with the leader cannot lose an acknowledged prefix the leader does not contradict. */
  lemma SpliceKeepsAgreement(log: seq<Entry>, leaderLog: seq<Entry>, m: nat, log': seq<Entry>, held: seq<Entry>, i: nat)
    requires Spliced(log, leaderLog, m, log') && Agree(log, held, i) && NoConflict(leaderLog, held, i)
    ensures Agree(log', held, i)
  {
    if log' != log {
      var k: nat :| SplicedAt(log, leaderLog, m, log', k);
      assert k >= i;
    }
  }

  lemma AcceptKeepsAck(c: Core, n: NodeId, log': seq<Entry>, m: nat, sl: Slot, i: nat)
    requires AcksOk(c) && AcksHeld(c) && CanAccept(c, n, log', m) && sl.node == n
    requires var c' := Accept(c, n, log', m); AcksOk(c') && sl in c'.acked && i <= c'.acked[sl]
    ensures AckHeld(Accept(c, n, log', m), sl, i)
  {
    var c' := Accept(c, n, log', m);
    var p := c.peers[n];
    if Unchallenged(c', sl.term, i, p.term) && !(sl.term == p.term && i <= m) {
      assert sl in c.acked && i <= c.acked[sl];
      assert SlotHeld(c, sl) && AckHeld(c, sl, i);
      assert Unchallenged(c, sl.term, i, p.term);
      SpliceKeepsAgreement(p.log, c.termLog[p.term], m, log', c.termLog[sl.term], i);
    }
  }

  lemma AcceptKeeps(c: Core, n: NodeId, log': seq<Entry>, m: nat)
    requires Inv(c) && CanAccept(c, n, log', m)
    ensures Inv(Accept(c, n, log', m)) && Grows(c, Accept(c, n, log', m))
    ensures Agree(log', c.peers[n].log, c.peers[n].commit)
  {
    var c' := Accept(c, n, log', m);
    AcceptGrows(c, n, log', m);
    AcceptKeepsLogs(c, n, log', m);
    LeadersComplete(c);
    AcceptKeepsCommits(c, n, log', m);
    ElectionsCarry(c, c');
    AcceptKeepsHeld(c, n, log', m);
    AcceptKeepsVoted(c, n, log', m);
  }

  lemma AcceptKeepsVoted(c: Core, n: NodeId, log': seq<Entry>, m: nat)
    requires Shape(c) && BallotsOk(c) && AcksOk(c) && AcksVoted(c) && CanAccept(c, n, log', m)
    ensures var c' := Accept(c, n, log', m); BallotsOk(c') && AcksOk(c') && AcksVoted(c')
  {
    AcceptGrows(c, n, log', m);
    AcksVotedCarry(c, Accept(c, n, log', m));
  }

  lemma AcceptKeepsHeld(c: Core, n: NodeId, log': seq<Entry>, m: nat)
    requires Shape(c) && AcksOk(c) && AcksHeld(c) && CanAccept(c, n, log', m)
    ensures var c' := Accept(c, n, log', m); AcksOk(c') && AcksHeld(c')
  {
    var c' := Accept(c, n, log', m);
    AcceptGrows(c, n, log', m);
    forall sl | sl in c'.acked && sl.node == n ensures SlotHeld(c', sl) {
      forall i: nat | i <= c'.acked[sl] ensures AckHeld(c', sl, i) {
        AcceptKeepsAck(c, n, log', m, sl, i);
      }
    }
    AcksHeldCarry(c, c');
  }

  // ---------------------------------------------------------------- consequences

  /** Log matching: two logs with the same term at an index agree on everything up to it. */
  lemma CoherentLogsMatch(termLog: map<nat, seq<Entry>>, a: seq<Entry>, b: seq<Entry>, k: nat)
    requires Coherent(termLog, a) && Coherent(termLog, b)
    requires k < |a| && k < |b| && a[k].term == b[k].term
    ensures Agree(a, b, k + 1)
  {
    assert CoherentAt(termLog, a, k) && CoherentAt(termLog, b, k);
  }

  /** Two committed prefixes agree wherever both reach. */
  lemma CommittedAgree(c: Core, t: nat, i: nat, u: nat, j: nat, k: nat)
    requires Complete(c) && Committed(c, t, i) && Committed(c, u, j) && k <= i && k <= j
    ensures Agree(c.termLog[t], c.termLog[u], k)
  {
    if t < u {
      assert Agree(c.termLog[u], c.termLog[t], i);
    } else if u < t {
      assert Agree(c.termLog[t], c.termLog[u], j);
    }
  }
}
