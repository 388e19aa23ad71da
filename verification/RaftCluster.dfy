/**
 A cluster of nodes and the messages between them. A sent message stays on the network for ever, so a
 step may deliver it late, twice, out of order, or never. Every handler runs under the node's lock and
 is one atomic step; a response carries the request it answers, as the waiting goroutine does.
 */
module RaftCluster {

  import opened Wrappers
  import opened Bytes
  import opened RaftTypes
  import opened RaftSpec
  import opened RaftCore

  datatype Message =
    | VoteCall(src: NodeId, dst: NodeId, vote: VoteRequest)
    | VoteReply(src: NodeId, dst: NodeId, vote: VoteRequest, voteResp: VoteResponse)
    | AppendCall(src: NodeId, dst: NodeId, append: AppendRequest)
    | AppendReply(src: NodeId, dst: NodeId, append: AppendRequest, appendResp: AppendResponse)
    | SnapshotCall(src: NodeId, dst: NodeId, snap: SnapshotRequest)
    | SnapshotReply(src: NodeId, dst: NodeId, snap: SnapshotRequest, snapResp: SnapshotResponse)

  /** A committed entry handed to the application of a node. */
  datatype Delivery = Delivery(node: NodeId, entry: Entry)

  /** `core` and `delivered` record the past; they never decide what a node does. */
  datatype Cluster = Cluster(
    nodes: map<NodeId, NodeState>,
    net: set<Message>,
    core: Core,
    delivered: set<Delivery>)

  datatype Step =
    | Timeout(n: NodeId)
    | DeliverVoteCall(m: Message)
    | DeliverVoteReply(m: Message)
    | ClientPropose(n: NodeId, data: Bytes)
    | Replicate(n: NodeId, peer: NodeId)
    | SendChunk(n: NodeId, peer: NodeId, offset: nat, data: Bytes, done: bool)
    | DeliverAppendCall(m: Message)
    | DeliverAppendReply(m: Message)
    | DeliverSnapshotCall(m: Message)
    | DeliverSnapshotReply(m: Message)
    | Compact(n: NodeId, entry: Entry, data: Bytes)
    | CrashAndRestart(n: NodeId)

  function Cfg(s: Cluster, n: NodeId): Config { Config(n, s.nodes.Keys - {n}) }

  // ---------------------------------------------------------------- keeping the record

  function RecordTerm(c: Core, n: NodeId, x: NodeState): (c': Core)
    requires n in c.peers
    ensures n in c'.peers
  {
    if x.currentTerm > c.peers[n].term then Bump(c, n, x.currentTerm) else c
  }

  function RecordVote(c: Core, n: NodeId, x: NodeState): (c': Core)
    requires n in c.peers
    ensures n in c'.peers
  {
    if x.votedFor != NO_NODE && Slot(n, c.peers[n].term) !in c.ballots then CastVote(c, n, x.votedFor) else c
  }

  function RecordElection(c: Core, n: NodeId, x: NodeState): (c': Core)
    requires n in c.peers
    ensures n in c'.peers
  {
    if x.role == Leader && c.peers[n].term !in c.elections then Elect(c, n, x.votes) else c
  }

  function RecordLog(c: Core, n: NodeId, x: NodeState, ack: Option<nat>): (c': Core)
    requires n in c.peers
    ensures n in c'.peers
  {
    if ack.Some? then Accept(c, n, x.log, ack.value)
    else if x.log != c.peers[n].log && x.log != [] then LeaderAppend(c, n, x.log[|x.log| - 1])
    else c
  }

  function RecordCommit(c: Core, n: NodeId, x: NodeState): (c': Core)
    requires n in c.peers
    ensures n in c'.peers
  {
    if x.commitIndex != c.peers[n].commit then Commit(c, n, x.commitIndex) else c
  }

  /** Node n is now x; if it acknowledged a leader, `ack` says up to which index. */
  function Record(c: Core, n: NodeId, x: NodeState, ack: Option<nat>): Core
    requires n in c.peers
  {
    RecordCommit(RecordLog(RecordElection(RecordVote(RecordTerm(c, n, x), n, x), n, x), n, x, ack), n, x)
  }

  /** The entries among what the node handed out since it was x. */
  function Delivered(n: NodeId, x: NodeState, x': NodeState): set<Delivery> {
    set i | |x.out| <= i < |x'.out| && x'.out[i].Command? :: Delivery(n, x'.out[i].entry)
  }

  function Put(s: Cluster, n: NodeId, x: NodeState, sent: set<Message>, ack: Option<nat>): Cluster
    requires n in s.nodes && n in s.core.peers
  {
    Cluster(s.nodes[n := x], s.net + sent, Record(s.core, n, x, ack), s.delivered + Delivered(n, s.nodes[n], x))
  }

  // ---------------------------------------------------------------- steps

  predicate Arrives(s: Cluster, m: Message) { m in s.net && m.dst in s.nodes && m.dst in s.core.peers }

  predicate Present(s: Cluster, n: NodeId) { n in s.nodes && n in s.core.peers }

  /** What the snapshot offered by a leader stands for. */
  function Covered(s: Cluster, req: SnapshotRequest): seq<Entry> {
    if req.term in s.core.termLog && req.lastIncludedIndex <= |s.core.termLog[req.term]|
    then s.core.termLog[req.term][..req.lastIncludedIndex] else []
  }

  predicate Installs(x: NodeState, req: SnapshotRequest) {
    && req.term >= x.currentTerm && req.lastIncludedIndex > x.snapIndex
    && ChunkFits(x.transfer, req) && req.done
  }

  /** Storage holds exactly the entries above the snapshot that the node holds in memory. */
  predicate DiskInStep(x: NodeState) { x.snapIndex <= |x.log| && x.disk.entries == x.log[x.snapIndex..] }

  predicate Enabled(s: Cluster, step: Step) {
    match step
    case Timeout(n) => Present(s, n) && s.nodes[n].role != Leader
    case DeliverVoteCall(m) => Arrives(s, m) && m.VoteCall?
    case DeliverVoteReply(m) => Arrives(s, m) && m.VoteReply?
    case ClientPropose(n, _) => Present(s, n)
    case Replicate(n, peer) =>
      && Present(s, n) && s.nodes[n].role == Leader && peer in Cfg(s, n).peers
      && At(s.nodes[n].nextIndex, peer) > s.nodes[n].snapIndex
    case SendChunk(n, peer, _, _, _) =>
      // the peer may have caught up between the decision to send a snapshot and the sending
      && Present(s, n) && s.nodes[n].role == Leader && peer in Cfg(s, n).peers && s.nodes[n].snapIndex > 0
    case DeliverAppendCall(m) => Arrives(s, m) && m.AppendCall?
    case DeliverAppendReply(m) => Arrives(s, m) && m.AppendReply?
    case DeliverSnapshotCall(m) =>
      // a snapshot is only installed over a log that ends at or before it
      && Arrives(s, m) && m.SnapshotCall?
      && (Installs(s.nodes[m.dst], m.snap) ==> |s.nodes[m.dst].log| <= m.snap.lastIncludedIndex)
    case DeliverSnapshotReply(m) => Arrives(s, m) && m.SnapshotReply?
    case Compact(n, e, _) =>
      // the state machine snapshots right after an entry it was handed
      Present(s, n) && Delivery(n, e) in s.delivered
    case CrashAndRestart(n) =>
      // storage and memory agree on the log when the crash comes
      Present(s, n) && DiskInStep(s.nodes[n])
  }

  /** Which node a step moves, what becomes of it, what it sends, and what it acknowledges. */
  datatype Outcome = Outcome(n: NodeId, x: NodeState, sent: set<Message>, ack: Option<nat>)

  function Perform(s: Cluster, step: Step): (o: Outcome)
    requires Enabled(s, step)
    ensures Present(s, o.n)
  {
    match step
    case Timeout(n) =>
      var x := StartElection(Cfg(s, n), s.nodes[n]);
      var calls := if x.role == Leader then {} else
        set p | p in Cfg(s, n).peers :: VoteCall(n, p, BuildVoteRequest(Cfg(s, n), x));
      Outcome(n, x, calls, None)
    case DeliverVoteCall(m) =>
      var (x, resp) := HandleRequestVote(s.nodes[m.dst], m.vote);
      Outcome(m.dst, x, {VoteReply(m.dst, m.src, m.vote, resp)}, None)
    case DeliverVoteReply(m) =>
      Outcome(m.dst, HandleVoteResponse(Cfg(s, m.dst), s.nodes[m.dst], m.src, m.vote, m.voteResp), {}, None)
    case ClientPropose(n, data) =>
      Outcome(n, Propose(Cfg(s, n), s.nodes[n], data), {}, None)
    case Replicate(n, peer) =>
      Outcome(n, s.nodes[n], {AppendCall(n, peer, BuildAppend(Cfg(s, n), s.nodes[n], peer))}, None)
    case SendChunk(n, peer, offset, data, done) =>
      var x := s.nodes[n];
      var req := SnapshotRequest(x.currentTerm, n, x.snapIndex, x.snapTerm, offset, data, done);
      Outcome(n, x, {SnapshotCall(n, peer, req)}, None)
    case DeliverAppendCall(m) =>
      var (x, resp) := HandleAppendEntries(s.nodes[m.dst], m.append);
      Outcome(m.dst, x, {AppendReply(m.dst, m.src, m.append, resp)},
          if resp.success then Some(Reach(m.append)) else None)
    case DeliverAppendReply(m) =>
      Outcome(m.dst, HandleAppendResponse(Cfg(s, m.dst), s.nodes[m.dst], m.src, m.append, m.appendResp), {}, None)
    case DeliverSnapshotCall(m) =>
      var (x, resp) := HandleInstallSnapshot(s.nodes[m.dst], m.snap, Covered(s, m.snap));
      Outcome(m.dst, x, {SnapshotReply(m.dst, m.src, m.snap, resp)},
          if resp.success && m.snap.done then Some(m.snap.lastIncludedIndex) else None)
    case DeliverSnapshotReply(m) =>
      Outcome(m.dst, HandleSnapshotResponse(s.nodes[m.dst], m.src, m.snap, m.snapResp), {}, None)
    case Compact(n, e, data) =>
      Outcome(n, CompactLog(s.nodes[n], data, e.index, e.term), {}, None)
    case CrashAndRestart(n) =>
      var x := s.nodes[n];
      Outcome(n, Restart(x.disk, x.log[..x.snapIndex]), {}, None)
  }

  function Apply(s: Cluster, step: Step): Cluster
    requires Enabled(s, step)
  {
    var o := Perform(s, step);
    Put(s, o.n, o.x, o.sent, o.ack)
  }

  ghost predicate Next(s: Cluster, s': Cluster) {
    exists step :: Enabled(s, step) && s' == Apply(s, step)
  }

  const BLANK_DISK := Disk(0, NO_NODE, [], [], 0, 0)

  ghost predicate Init(s: Cluster) {
    && NO_NODE !in s.nodes
    && (forall n :: n in s.nodes ==> s.nodes[n] == Restart(BLANK_DISK, []))
    && s.net == {} && s.delivered == {}
    && s.core == Core(s.nodes.Keys, s.core.peers, map[], map[], map[], map[])
    && s.core.peers.Keys == s.nodes.Keys && (forall n :: n in s.nodes ==> s.core.peers[n] == Peer(0, [], 0))
  }

  ghost predicate StepAt(run: seq<Cluster>, i: nat) { i + 1 < |run| && Next(run[i], run[i + 1]) }

  /** A run: any number of steps from a freshly started cluster. */
  ghost predicate IsRun(run: seq<Cluster>) {
    run != [] && Init(run[0]) && forall i: nat :: i + 1 < |run| ==> StepAt(run, i)
  }
}
