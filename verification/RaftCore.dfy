/**
 The protocol behind the code, without messages. Terms, ballots, elections and acknowledgements are
 remembered for ever; every step of a cluster is a short sequence of the six actions below.
 */
module RaftCore {

  import opened RaftTypes

  datatype Peer = Peer(term: nat, log: seq<Entry>, commit: nat)

  /** A node acting in a term. */
  datatype Slot = Slot(node: NodeId, term: nat)

  /** The first vote a node cast in a term, with the log it held at that moment. */
  datatype Ballot = Ballot(candidate: NodeId, log: seq<Entry>)

  /** A won election: the winner, the voters it counted, and its log when it won. */
  datatype Election = Election(leader: NodeId, voters: set<NodeId>, log: seq<Entry>)

  datatype Core = Core(
    servers: set<NodeId>,
    peers: map<NodeId, Peer>,
    ballots: map<Slot, Ballot>,
    elections: map<nat, Election>,
    termLog: map<nat, seq<Entry>>,   // the log of each term's leader, as far as it got
    acked: map<Slot, nat>)           // how much of its term leader's log a node confirmed to hold

  ghost predicate IsQuorum(servers: set<NodeId>, q: set<NodeId>) {
    q <= servers && |q| >= |servers| / 2 + 1
  }

  /** Both logs reach index k and agree up to it. */
  ghost predicate Agree(a: seq<Entry>, b: seq<Entry>, k: nat) {
    k <= |a| && k <= |b| && forall j :: 0 <= j < k ==> a[j] == b[j]
  }

  /** The logs agree on whatever they share below index k. */
  ghost predicate NoConflict(a: seq<Entry>, b: seq<Entry>, k: nat) {
    forall j :: 0 <= j < k && j < |a| && j < |b| ==> a[j] == b[j]
  }

  // ---------------------------------------------------------------- actions

  function Bump(c: Core, n: NodeId, t: nat): Core
    requires n in c.peers
  {
    c.(peers := c.peers[n := c.peers[n].(term := t)])
  }

  ghost predicate CanBump(c: Core, n: NodeId, t: nat) { n in c.peers && c.peers[n].term < t }

  function CastVote(c: Core, n: NodeId, cand: NodeId): Core
    requires n in c.peers
  {
    c.(ballots := c.ballots[Slot(n, c.peers[n].term) := Ballot(cand, c.peers[n].log)])
  }

  ghost predicate CanCastVote(c: Core, n: NodeId) { n in c.peers && Slot(n, c.peers[n].term) !in c.ballots }

  function Elect(c: Core, n: NodeId, q: set<NodeId>): Core
    requires n in c.peers
  {
    var p := c.peers[n];
    c.(elections := c.elections[p.term := Election(n, q, p.log)],
       termLog := c.termLog[p.term := p.log],
       acked := c.acked[Slot(n, p.term) := |p.log|])
  }

  ghost predicate CanElect(c: Core, n: NodeId, q: set<NodeId>) {
    && n in c.peers
    && var p := c.peers[n];
    && p.term >= 1
    && IsQuorum(c.servers, q)
    && (p.term in c.elections ==> c.elections[p.term].leader != n)
    && forall v :: v in q ==>
         && Slot(v, p.term) in c.ballots
         && c.ballots[Slot(v, p.term)].candidate == n
         && UpToDate(|p.log|, LastTerm(p.log), c.ballots[Slot(v, p.term)].log)
  }

  function LeaderAppend(c: Core, n: NodeId, e: Entry): Core
    requires n in c.peers
  {
    var p := c.peers[n];
    var log' := p.log + [e];
    c.(peers := c.peers[n := p.(log := log')],
       termLog := c.termLog[p.term := log'],
       acked := c.acked[Slot(n, p.term) := |log'|])
  }

  ghost predicate CanLeaderAppend(c: Core, n: NodeId, e: Entry) {
    && n in c.peers
    && var p := c.peers[n];
    && p.term in c.elections && c.elections[p.term].leader == n
    && p.term in c.termLog && c.termLog[p.term] == p.log
    && e.term == p.term && e.index == |p.log| + 1
  }

  function Max(a: nat, b: nat): nat { if a < b then b else a }

  function AckOf(c: Core, sl: Slot): nat { if sl in c.acked then c.acked[sl] else 0 }

  /** Node n takes over log' and confirms the first m entries of the leader of its term. */
  function Accept(c: Core, n: NodeId, log': seq<Entry>, m: nat): Core
    requires n in c.peers
  {
    var p := c.peers[n];
    c.(peers := c.peers[n := p.(log := log')],
       acked := c.acked[Slot(n, p.term) := Max(m, AckOf(c, Slot(n, p.term)))])
  }

  /** log' is log, or log cut at the first difference with (or at its end) and completed from the leader. */
  ghost predicate Spliced(log: seq<Entry>, leaderLog: seq<Entry>, m: nat, log': seq<Entry>) {
    || log' == log
    || exists k: nat :: SplicedAt(log, leaderLog, m, log', k)
  }

  ghost predicate SplicedAt(log: seq<Entry>, leaderLog: seq<Entry>, m: nat, log': seq<Entry>, k: nat) {
    && k <= m && k <= |log| && |log'| == m && m <= |leaderLog|
    && (k < |log| ==> k < m && log[k] != leaderLog[k])
    && Agree(log', log, k)
  }

  ghost predicate CanAccept(c: Core, n: NodeId, log': seq<Entry>, m: nat) {
    && n in c.peers
    && var p := c.peers[n];
    && p.term in c.elections && c.elections[p.term].leader != n
    && p.term in c.termLog
    && Agree(log', c.termLog[p.term], m)
    && Spliced(p.log, c.termLog[p.term], m, log')
  }

  function Commit(c: Core, n: NodeId, k: nat): Core
    requires n in c.peers
  {
    c.(peers := c.peers[n := c.peers[n].(commit := k)])
  }

  ghost predicate CanCommit(c: Core, n: NodeId, k: nat) {
    n in c.peers && CommittedUpTo(c, c.peers[n].log, k, c.peers[n].term)
  }

  // ---------------------------------------------------------------- commitment

  function Ackers(c: Core, t: nat, i: nat): set<NodeId> {
    set q | q in c.servers && Slot(q, t) in c.acked && c.acked[Slot(q, t)] >= i
  }

  /** A quorum confirmed the leader of term t up to index i, and the entry at i is of that very term. */
  ghost predicate Committed(c: Core, t: nat, i: nat) {
    && t in c.termLog && 0 < i <= |c.termLog[t]|
    && c.termLog[t][i - 1].term == t
    && IsQuorum(c.servers, Ackers(c, t, i))
  }

  ghost predicate CommittedBy(c: Core, log: seq<Entry>, k: nat, t: nat, i: nat) {
    Committed(c, t, i) && k <= i && Agree(log, c.termLog[t], k)
  }

  /** The first k entries of log were committed in a term no later than bound. */
  ghost predicate CommittedUpTo(c: Core, log: seq<Entry>, k: nat, bound: nat) {
    k == 0 || exists t: nat, i: nat :: t <= bound && CommittedBy(c, log, k, t, i)
  }

  // ---------------------------------------------------------------- invariant

  ghost predicate Shape(c: Core) {
    c.peers.Keys == c.servers && c.elections.Keys == c.termLog.Keys
  }

  ghost predicate BallotsOk(c: Core) {
    forall sl :: sl in c.ballots ==> sl.node in c.peers && sl.term <= c.peers[sl.node].term
  }

  ghost predicate ElectionOk(c: Core, t: nat)
    requires t in c.elections
  {
    var e := c.elections[t];
    && t >= 1
    && e.leader in c.peers && c.peers[e.leader].term >= t
    && IsQuorum(c.servers, e.voters)
    && t in c.termLog && Agree(e.log, c.termLog[t], |e.log|)
    && (forall k :: 0 <= k < |e.log| ==> e.log[k].term < t)
    && forall v :: v in e.voters ==>
         && Slot(v, t) in c.ballots
         && c.ballots[Slot(v, t)].candidate == e.leader
         && UpToDate(|e.log|, LastTerm(e.log), c.ballots[Slot(v, t)].log)
  }

  ghost predicate ElectionsOk(c: Core) {
    forall t :: t in c.elections ==> ElectionOk(c, t)
  }

  /** Every entry of the log sits where the leader of its term put it, and so does all that precedes it. */
  ghost predicate Coherent(termLog: map<nat, seq<Entry>>, log: seq<Entry>) {
    forall k: nat :: k < |log| ==> CoherentAt(termLog, log, k)
  }

  ghost predicate CoherentAt(termLog: map<nat, seq<Entry>>, log: seq<Entry>, k: nat)
    requires k < |log|
  {
    log[k].term in termLog && Agree(log, termLog[log[k].term], k + 1)
  }

  ghost predicate Bounded(log: seq<Entry>, t: nat) {
    forall k :: 0 <= k < |log| ==> log[k].term <= t && log[k].index == k + 1
  }

  ghost predicate TermLogsOk(termLog: map<nat, seq<Entry>>) {
    forall t :: t in termLog ==> Coherent(termLog, termLog[t]) && Bounded(termLog[t], t)
  }

  ghost predicate LogsOk(c: Core) {
    && TermLogsOk(c.termLog)
    && (forall n :: n in c.peers ==> Coherent(c.termLog, c.peers[n].log) && Bounded(c.peers[n].log, c.peers[n].term))
    && (forall sl :: sl in c.ballots ==> Coherent(c.termLog, c.ballots[sl].log) && Bounded(c.ballots[sl].log, sl.term))
  }

  ghost predicate AcksOk(c: Core) {
    forall sl :: sl in c.acked ==>
      && sl.node in c.peers && sl.term <= c.peers[sl.node].term
      && sl.term in c.termLog && c.acked[sl] <= |c.termLog[sl.term]|
  }

  /** No later leader up to term hi contradicts what the leader of term t has below index i. */
  ghost predicate Unchallenged(c: Core, t: nat, i: nat, hi: nat)
    requires t in c.termLog
  {
    forall w :: w in c.termLog && t < w <= hi ==> NoConflict(c.termLog[w], c.termLog[t], i)
  }

  /** What a node confirmed, it still holds, unless a later leader contradicted it. */
  ghost predicate AckHeld(c: Core, sl: Slot, i: nat)
    requires sl in c.acked && sl.term in c.termLog && sl.node in c.peers
  {
    Unchallenged(c, sl.term, i, c.peers[sl.node].term) ==> Agree(c.peers[sl.node].log, c.termLog[sl.term], i)
  }

  ghost predicate SlotHeld(c: Core, sl: Slot)
    requires sl in c.acked && sl.term in c.termLog && sl.node in c.peers
  {
    forall i: nat :: i <= c.acked[sl] ==> AckHeld(c, sl, i)
  }

  ghost predicate AcksHeld(c: Core)
    requires AcksOk(c)
  {
    forall sl :: sl in c.acked ==> SlotHeld(c, sl)
  }

  /** As Unchallenged, for a voter of term u: the leader its own vote elected does not count. */
  ghost predicate UnchallengedAtVote(c: Core, t: nat, i: nat, v: NodeId, u: nat)
    requires t in c.termLog
  {
    forall w :: w in c.termLog && t < w <= u && !(w == u && w in c.elections && v in c.elections[w].voters)
      ==> NoConflict(c.termLog[w], c.termLog[t], i)
  }

  ghost predicate AckVoted(c: Core, sl: Slot, u: nat, i: nat)
    requires sl in c.acked && sl.term in c.termLog && Slot(sl.node, u) in c.ballots
  {
    UnchallengedAtVote(c, sl.term, i, sl.node, u) ==> Agree(c.ballots[Slot(sl.node, u)].log, c.termLog[sl.term], i)
  }

  ghost predicate SlotVoted(c: Core, sl: Slot, u: nat)
    requires sl in c.acked && sl.term in c.termLog && Slot(sl.node, u) in c.ballots
  {
    forall i: nat :: i <= c.acked[sl] ==> AckVoted(c, sl, u, i)
  }

  ghost predicate AcksVoted(c: Core)
    requires AcksOk(c)
  {
    forall sl, u: nat :: sl in c.acked && sl.term < u && Slot(sl.node, u) in c.ballots ==> SlotVoted(c, sl, u)
  }

  ghost predicate CommitsOk(c: Core) {
    forall n :: n in c.peers ==> CommittedUpTo(c, c.peers[n].log, c.peers[n].commit, c.peers[n].term)
  }

  ghost predicate Inv(c: Core) {
    && Shape(c) && BallotsOk(c) && ElectionsOk(c) && LogsOk(c) && AcksOk(c)
    && AcksHeld(c) && AcksVoted(c) && CommitsOk(c)
  }
}
