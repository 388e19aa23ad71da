/**
 Catching up through a snapshot. Where the leader has compacted away what a follower needs next, it sends its snapshot
 in chunks; in any run this can go on until the follower has the leader's whole log.
 */
module RaftCatchUp {

  import opened Bytes
  import opened RaftTypes
  import opened RaftSpec
  import opened RaftCore
  import opened RaftCluster
  import opened RaftInvariant
  import opened RaftElectionSteps
  import opened RaftSafety
  import opened RaftTheorems
  import opened RaftStream
  import opened RaftReplicas
  import opened RaftTransfer
  import opened RaftProgress
  import opened RaftServes

  // ---------------------------------------------------------------- going on

  lemma RunOn(run: seq<Cluster>, s': Cluster)
    requires IsRun(run) && Next(run[|run| - 1], s')
    ensures IsRun(run + [s'])
  {
    forall i: nat | i + 1 < |run + [s']| ensures StepAt(run + [s'], i) {
      assert (run + [s'])[i] == run[i];
      assert i + 1 < |run| ==> StepAt(run, i) && (run + [s'])[i + 1] == run[i + 1];
    }
  }

  lemma FaithfulOn(enc: Encoder, run: seq<Cluster>, s': Cluster)
    requires IsFaithfulRun(enc, run) && Next(run[|run| - 1], s') && FaithfulNext(enc, run[|run| - 1], s')
    ensures IsFaithfulRun(enc, run + [s'])
  {
    RunOn(run, s');
    forall i: nat | i + 1 < |run + [s']| ensures FaithfulAt(enc, run + [s'], i) {
      assert (run + [s'])[i] == run[i];
      assert i + 1 < |run| ==> FaithfulAt(enc, run, i) && (run + [s'])[i + 1] == run[i + 1];
    }
  }

  /** The run goes on from where another ended, to the state s. */
  ghost predicate Extends(enc: Encoder, past: seq<Cluster>, run: seq<Cluster>, s: Cluster) {
    IsFaithfulRun(enc, run) && past <= run && run[|run| - 1] == s
  }

  lemma Steps(enc: Encoder, s: Cluster, step: Step)
    requires Enabled(s, step) && Faithful(enc, s, step)
    ensures Next(s, Apply(s, step)) && FaithfulNext(enc, s, Apply(s, step))
    ensures var o := Perform(s, step); Moved(s, Apply(s, step), o.n, o.x, o.sent)
  {
  }

  lemma TakesStep(enc: Encoder, past: seq<Cluster>, run: seq<Cluster>, s: Cluster, step: Step)
      returns (run': seq<Cluster>, s': Cluster)
    requires Extends(enc, past, run, s) && Enabled(s, step) && Faithful(enc, s, step)
    ensures var o := Perform(s, step); Extends(enc, past, run', s') && Moved(s, s', o.n, o.x, o.sent)
  {
    Steps(enc, s, step);
    s' := Apply(s, step);
    FaithfulOn(enc, run, s');
    run' := run + [s'];
  }

  lemma NodePresent(enc: Encoder, past: seq<Cluster>, run: seq<Cluster>, s: Cluster, n: NodeId)
    requires Extends(enc, past, run, s) && n in s.nodes
    ensures Present(s, n) && DiskOk(s.nodes[n])
  {
    RunIsGood(run, |run| - 1);
    NodeFacts(s, n);
  }

  /** What a leader's snapshot stands for is the first part of its own log. */
  lemma CoveredIs(enc: Encoder, past: seq<Cluster>, run: seq<Cluster>, s: Cluster, l: NodeId, req: SnapshotRequest)
    requires Extends(enc, past, run, s) && l in s.nodes && s.nodes[l].role == Leader
    requires req.term == s.nodes[l].currentTerm && req.lastIncludedIndex == s.nodes[l].snapIndex <= |s.nodes[l].log|
    ensures Covered(s, req) == s.nodes[l].log[..s.nodes[l].snapIndex]
  {
    LeaderLogIs(run, run, s, l);
  }

  // ---------------------------------------------------------------- the transfer

  /** Node l leads and has a snapshot; node q is in no later term, and all it has lies at or before the snapshot. */
  ghost predicate Behind(s: Cluster, l: NodeId, q: NodeId) {
    && l in s.nodes && q in s.nodes && q != l
    && var y, x := s.nodes[l], s.nodes[q];
    && y.role == Leader && y.snapIndex <= |y.log| && x.currentTerm <= y.currentTerm
    && x.snapIndex < y.snapIndex && |x.log| <= y.snapIndex
  }

  function HeadOf(y: NodeState, l: NodeId): SnapshotRequest {
    SnapshotRequest(y.currentTerm, l, y.snapIndex, y.snapTerm, 0, [], false)
  }

  function CoveredBy(y: NodeState): seq<Entry>
    requires y.snapIndex <= |y.log|
  {
    y.log[..y.snapIndex]
  }

  lemma ChunkIsSent(enc: Encoder, past: seq<Cluster>, run: seq<Cluster>, s: Cluster, l: NodeId, q: NodeId,
                    req: SnapshotRequest) returns (run': seq<Cluster>, s': Cluster)
    requires Extends(enc, past, run, s) && l in s.nodes && q in s.nodes && q != l
    requires var y := s.nodes[l];
             && y.role == Leader && y.snapIndex > 0
             && req == HeadOf(y, l).(offset := req.offset, data := req.data, done := req.done)
             && ChunkOf(y.disk.snapshot, req.offset, req.data, req.done)
    ensures Extends(enc, past, run', s') && s'.nodes == s.nodes && s.net + {SnapshotCall(l, q, req)} <= s'.net
  {
    NodePresent(enc, past, run, s, l);
    run', s' := TakesStep(enc, past, run, s, SendChunk(l, q, req.offset, req.data, req.done));
  }

  lemma ChunkArrives(enc: Encoder, past: seq<Cluster>, run: seq<Cluster>, s: Cluster, l: NodeId, q: NodeId,
                     req: SnapshotRequest) returns (run': seq<Cluster>, s': Cluster)
    requires Extends(enc, past, run, s) && q in s.nodes && SnapshotCall(l, q, req) in s.net
    requires |s.nodes[q].log| <= req.lastIncludedIndex
    ensures Extends(enc, past, run', s')
    ensures var (x, resp) := HandleInstallSnapshot(s.nodes[q], req, Covered(s, req));
            Moved(s, s', q, x, {SnapshotReply(q, l, req, resp)})
  {
    NodePresent(enc, past, run, s, q);
    run', s' := TakesStep(enc, past, run, s, DeliverSnapshotCall(SnapshotCall(l, q, req)));
  }

  /** One chunk is sent and taken in. */
  lemma ChunkGoes(enc: Encoder, past: seq<Cluster>, run: seq<Cluster>, s: Cluster, l: NodeId, q: NodeId,
                  req: SnapshotRequest) returns (run': seq<Cluster>, s': Cluster)
    requires Extends(enc, past, run, s) && l in s.nodes && q in s.nodes && q != l
    requires var y := s.nodes[l];
             && y.role == Leader && 0 < y.snapIndex <= |y.log| && |s.nodes[q].log| <= y.snapIndex
             && req == HeadOf(y, l).(offset := req.offset, data := req.data, done := req.done)
             && ChunkOf(y.disk.snapshot, req.offset, req.data, req.done)
    ensures Extends(enc, past, run', s')
    ensures var (x, resp) := HandleInstallSnapshot(s.nodes[q], req, CoveredBy(s.nodes[l]));
            Moved(s, s', q, x, {SnapshotReply(q, l, req, resp)})
  {
    var run1, s1 := ChunkIsSent(enc, past, run, s, l, q, req);
    CoveredIs(enc, past, run1, s1, l, req);
    run', s' := ChunkArrives(enc, past, run1, s1, l, q, req);
  }

  lemma ChunkIs(head: SnapshotRequest, data: Bytes, chunks: seq<SnapshotRequest>, i: nat)
    requires IsChunking(head, data, chunks) && i < |chunks|
    ensures var req := chunks[i];
            && req == head.(offset := req.offset, data := req.data, done := req.done)
            && ChunkOf(data, req.offset, req.data, req.done) && (req.done <==> i == |chunks| - 1)
  {
    var offset := SNAPSHOT_CHUNK_SIZE * i;
    assert chunks[i] == Chunk(head, data, offset);
    assert SNAPSHOT_CHUNK_SIZE * (i + 1) == offset + SNAPSHOT_CHUNK_SIZE;
  }

  /** Before the last chunk is in, the follower has the log it had. */
  lemma LogWaits(x: NodeState, head: SnapshotRequest, data: Bytes, chunks: seq<SnapshotRequest>, k: nat,
                 covered: seq<Entry>)
    requires IsChunking(head, data, chunks) && k < |chunks|
    requires x.currentTerm <= head.term && x.snapIndex < head.lastIncludedIndex
    ensures Feed(x, chunks[..k], covered).log == x.log
  {
    if k > 0 {
      FedAfter(x, head, data, chunks, k, covered);
      HeadHeard(x, head);
    }
  }

  /** Nothing but node q has changed, which has been fed k chunks and has answered the last of them. */
  ghost predicate FedUpTo(s: Cluster, s': Cluster, l: NodeId, q: NodeId, chunks: seq<SnapshotRequest>, k: nat)
    requires Behind(s, l, q) && k <= |chunks|
  {
    var covered := CoveredBy(s.nodes[l]);
    && s'.nodes == s.nodes[q := Feed(s.nodes[q], chunks[..k], covered)]
    && (k > 0 ==> SnapshotReply(q, l, chunks[k - 1], AnswerTo(s.nodes[q], chunks[..k], covered)) in s'.net)
  }

  lemma FedOne(s: Cluster, m: Cluster, s': Cluster, l: NodeId, q: NodeId, chunks: seq<SnapshotRequest>, k: nat)
    requires Behind(s, l, q) && 0 < k <= |chunks| && FedUpTo(s, m, l, q, chunks, k - 1)
    requires var (x, resp) := HandleInstallSnapshot(m.nodes[q], chunks[k - 1], CoveredBy(s.nodes[l]));
             Moved(m, s', q, x, {SnapshotReply(q, l, chunks[k - 1], resp)})
    ensures FedUpTo(s, s', l, q, chunks, k)
  {
    assert chunks[..k][..k - 1] == chunks[..k - 1];
  }

  lemma {:induction false} Transfers(enc: Encoder, past: seq<Cluster>, run: seq<Cluster>, s: Cluster, l: NodeId,
                                     q: NodeId, chunks: seq<SnapshotRequest>, k: nat)
      returns (run': seq<Cluster>, s': Cluster)
    requires Extends(enc, past, run, s) && Behind(s, l, q) && k <= |chunks|
    requires IsChunking(HeadOf(s.nodes[l], l), s.nodes[l].disk.snapshot, chunks)
    ensures Extends(enc, past, run', s') && FedUpTo(s, s', l, q, chunks, k)
  {
    if k == 0 {
      run', s' := run, s;
      assert s.nodes == s.nodes[q := s.nodes[q]];
    } else {
      var y, x := s.nodes[l], s.nodes[q];
      var run1, s1 := Transfers(enc, past, run, s, l, q, chunks, k - 1);
      ChunkIs(HeadOf(y, l), y.disk.snapshot, chunks, k - 1);
      LogWaits(x, HeadOf(y, l), y.disk.snapshot, chunks, k - 1, CoveredBy(y));
      run', s' := ChunkGoes(enc, past, run1, s1, l, q, chunks[k - 1]);
      FedOne(s, s1, s', l, q, chunks, k);
    }
  }

  // ---------------------------------------------------------------- what the leader makes of it

  /**
   A snapshot that is confirmed takes the leader on exactly if it did not know that the follower has as much; otherwise
   nothing changes, and since the next entry is still compacted away it will send the snapshot again.
   */
  lemma SnapshotLeadsOnIff(y: NodeState, q: NodeId, req: SnapshotRequest, resp: SnapshotResponse)
    requires y.role == Leader && req.term == y.currentTerm == resp.term && resp.success && req.done
    requires req.lastIncludedIndex == y.snapIndex && At(y.nextIndex, q) <= y.snapIndex
    ensures var y' := HandleSnapshotResponse(y, q, req, resp);
            && (At(y'.nextIndex, q) > y'.snapIndex <==> At(y.matchIndex, q) < y.snapIndex)
            && (At(y'.nextIndex, q) <= y'.snapIndex ==> y' == y)
  {
  }

  /** A rejection that comes late, and a compaction: the leader sends its snapshot for ever. */
  lemma LateRejectionStalls(cfg: Config, y: NodeState, q: NodeId, req: AppendRequest, late: AppendResponse, data: Bytes,
                            chunk: SnapshotRequest)
    requires y.role == Leader && y.currentTerm == 1 && y.snapIndex == 0 && y.commitIndex == 2
    requires y.log == [Entry(1, 1, []), Entry(2, 1, [])] && y.matchIndex == map[q := 2]
    requires req.term == 1 && late == AppendResponse(1, false, 0, 0, 1)
    requires chunk.term == 1 && chunk.lastIncludedIndex == 2 && chunk.done
    ensures var y' := CompactLog(HandleAppendResponse(cfg, y, q, req, late), data, 2, 1);
            && At(y'.nextIndex, q) <= y'.snapIndex
            && HandleSnapshotResponse(y', q, chunk, SnapshotResponse(1, true)) == y'
  {
  }

  // ---------------------------------------------------------------- and then the rest of the log

  lemma Confirmed(enc: Encoder, past: seq<Cluster>, run: seq<Cluster>, s: Cluster, l: NodeId, q: NodeId,
                  req: SnapshotRequest, resp: SnapshotResponse) returns (run': seq<Cluster>, s': Cluster)
    requires Extends(enc, past, run, s) && l in s.nodes && SnapshotReply(q, l, req, resp) in s.net
    ensures Extends(enc, past, run', s')
    ensures Moved(s, s', l, HandleSnapshotResponse(s.nodes[l], q, req, resp), {})
  {
    NodePresent(enc, past, run, s, l);
    run', s' := TakesStep(enc, past, run, s, DeliverSnapshotReply(SnapshotReply(q, l, req, resp)));
  }

  lemma SnapshotLogIs(y: NodeState)
    requires y.snapIndex <= |y.log| && y.snapTerm == TermAt(y.log, y.snapIndex)
    ensures SnapshotLog(CoveredBy(y), y.snapIndex, y.snapTerm) == CoveredBy(y)
  {
  }

  /** The leader goes on behind the snapshot the follower has. */
  ghost predicate Shipped(s: Cluster, s': Cluster, l: NodeId, q: NodeId)
    requires Behind(s, l, q)
  {
    var y, x := s.nodes[l], s.nodes[q];
    && s'.nodes.Keys == s.nodes.Keys
    && HasSnapshot(x, s'.nodes[q], HeadOf(y, l), y.disk.snapshot, CoveredBy(y))
    && s'.nodes[l] == y.(matchIndex := y.matchIndex[q := y.snapIndex], nextIndex := y.nextIndex[q := y.snapIndex + 1])
  }

  lemma LeaderGoesOn(y: NodeState, q: NodeId, req: SnapshotRequest)
    requires y.role == Leader && req.term == y.currentTerm && req.lastIncludedIndex == y.snapIndex && req.done
    requires At(y.matchIndex, q) < y.snapIndex
    ensures HandleSnapshotResponse(y, q, req, SnapshotResponse(y.currentTerm, true))
         == y.(matchIndex := y.matchIndex[q := y.snapIndex], nextIndex := y.nextIndex[q := y.snapIndex + 1])
  {
  }

  /** The follower has the snapshot, and its answer to the last chunk is on its way. */
  ghost predicate Answered(s: Cluster, s': Cluster, l: NodeId, q: NodeId, last: SnapshotRequest)
    requires Behind(s, l, q)
  {
    var y, x := s.nodes[l], s.nodes[q];
    && s'.nodes.Keys == s.nodes.Keys && s'.nodes[l] == y
    && HasSnapshot(x, s'.nodes[q], HeadOf(y, l), y.disk.snapshot, CoveredBy(y))
    && SnapshotReply(q, l, last, SnapshotResponse(y.currentTerm, true)) in s'.net
    && last.done && last.term == y.currentTerm && last.lastIncludedIndex == y.snapIndex
  }

  lemma AllFed(s: Cluster, s': Cluster, l: NodeId, q: NodeId, chunks: seq<SnapshotRequest>)
    requires Behind(s, l, q) && FedUpTo(s, s', l, q, chunks, |chunks|)
    requires IsChunking(HeadOf(s.nodes[l], l), s.nodes[l].disk.snapshot, chunks)
    ensures Answered(s, s', l, q, chunks[|chunks| - 1])
  {
    var y, x, n := s.nodes[l], s.nodes[q], |chunks|;
    CleanTransferInstalls(x, HeadOf(y, l), y.disk.snapshot, chunks, CoveredBy(y));
    ChunkIs(HeadOf(y, l), y.disk.snapshot, chunks, n - 1);
    assert chunks[..n] == chunks;
  }

  lemma IsShipped(s: Cluster, m: Cluster, s': Cluster, l: NodeId, q: NodeId, last: SnapshotRequest)
    requires Behind(s, l, q) && At(s.nodes[l].matchIndex, q) < s.nodes[l].snapIndex && Answered(s, m, l, q, last)
    requires s'.nodes == m.nodes[l := HandleSnapshotResponse(s.nodes[l], q, last,
                                                             SnapshotResponse(s.nodes[l].currentTerm, true))]
    ensures Shipped(s, s', l, q)
  {
    LeaderGoesOn(s.nodes[l], q, last);
  }

  lemma Ships(enc: Encoder, past: seq<Cluster>, run: seq<Cluster>, s: Cluster, l: NodeId, q: NodeId,
              chunks: seq<SnapshotRequest>) returns (run': seq<Cluster>, s': Cluster)
    requires Extends(enc, past, run, s) && Behind(s, l, q) && At(s.nodes[l].matchIndex, q) < s.nodes[l].snapIndex
    requires IsChunking(HeadOf(s.nodes[l], l), s.nodes[l].disk.snapshot, chunks)
    ensures Extends(enc, past, run', s') && Shipped(s, s', l, q)
  {
    var last := chunks[|chunks| - 1];
    var run1, s1 := Transfers(enc, past, run, s, l, q, chunks, |chunks|);
    AllFed(s, s1, l, q, chunks);
    run', s' := Confirmed(enc, past, run1, s1, l, q, last, SnapshotResponse(s.nodes[l].currentTerm, true));
    IsShipped(s, s1, s', l, q, last);
  }

  /** What comes right behind the snapshot is accepted. */
  lemma AcceptsBehindSnapshot(cfg: Config, y: NodeState, x: NodeState, q: NodeId)
    requires 0 < y.snapIndex <= |y.log| && At(y.nextIndex, q) == y.snapIndex + 1
    requires x.currentTerm == y.currentTerm && x.snapIndex == y.snapIndex && x.log == CoveredBy(y)
    ensures var (x', resp) := HandleAppendEntries(x, BuildAppend(cfg, y, q));
            resp.success && resp.term == x'.currentTerm == y.currentTerm
  {
  }

  /** The follower that accepts what the leader sends now has the leader's whole log. */
  lemma AcceptedIs(enc: Encoder, past: seq<Cluster>, run: seq<Cluster>, s: Cluster, l: NodeId, q: NodeId)
    requires Extends(enc, past, run, s) && l in s.nodes && q in s.nodes && q != l && s.nodes[l].role == Leader
    requires s.nodes[l].snapIndex < At(s.nodes[l].nextIndex, q) <= |s.nodes[l].log| + 1
    requires HandleAppendEntries(s.nodes[q], BuildAppend(Cfg(s, l), s.nodes[l], q)).1.success
    ensures var x' := HandleAppendEntries(s.nodes[q], BuildAppend(Cfg(s, l), s.nodes[l], q)).0;
            Agree(x'.log, s.nodes[l].log, |s.nodes[l].log|) && x'.commitIndex >= s.nodes[l].commitIndex
  {
    BuiltReachesEnd(Cfg(s, l), s.nodes[l], q);
    var run1, s1 := Sends(run, run, s, l, q);
    assert s1.nodes == s.nodes;
    LeaderLogIs(run, run1, s1, l);
    ClampNow(run, run1, s1, AppendCall(l, q, BuildAppend(Cfg(s, l), s.nodes[l], q)));
  }

  lemma RestFollows(enc: Encoder, past: seq<Cluster>, run: seq<Cluster>, s: Cluster, l: NodeId, q: NodeId)
      returns (run': seq<Cluster>, s': Cluster)
    requires Extends(enc, past, run, s) && l in s.nodes && q in s.nodes && q != l && s.nodes[l].role == Leader
    requires var y, x := s.nodes[l], s.nodes[q];
             && 0 < y.snapIndex <= |y.log| && At(y.nextIndex, q) == y.snapIndex + 1
             && x.currentTerm == y.currentTerm && x.snapIndex == y.snapIndex && x.log == CoveredBy(y)
    ensures Extends(enc, past, run', s') && l in s'.nodes && q in s'.nodes && CaughtUp(s', l, q)
    ensures StillLeads(s.nodes[l], s'.nodes[l]) && AllPassedOn(s, s')
    ensures s'.nodes[q].commitIndex >= s.nodes[l].commitIndex
  {
    var cfg, y, x := Cfg(s, l), s.nodes[l], s.nodes[q];
    var req := BuildAppend(cfg, y, q);
    AcceptsBehindSnapshot(cfg, y, x, q);
    AcceptedIs(enc, past, run, s, l, q);
    BuiltReachesEnd(cfg, y, q);
    AcceptedLeads(cfg, y, q, req, HandleAppendEntries(x, req).1);
    run', s' := AppendRound(run, run, s, l, q);
    ContinuesFaithfully(enc, run, run', s');
    RunPassesOn(run, run', s, s');
  }

  /**
   In every run, a follower that lies wholly behind the leader's snapshot, and of which the leader does not know better,
   can be brought up: it gets the snapshot in chunks, hands it out, takes the rest of the log, and the leader knows.
   */
  lemma SnapshotBringsUp(enc: Encoder, run: seq<Cluster>, s: Cluster, l: NodeId, q: NodeId,
                         chunks: seq<SnapshotRequest>) returns (run': seq<Cluster>, s': Cluster)
    requires IsFaithfulRun(enc, run) && s == run[|run| - 1]
    requires Behind(s, l, q) && At(s.nodes[l].matchIndex, q) < s.nodes[l].snapIndex
    requires IsChunking(HeadOf(s.nodes[l], l), s.nodes[l].disk.snapshot, chunks)
    ensures IsFaithfulRun(enc, run') && run <= run' && run'[|run'| - 1] == s'
    ensures l in s'.nodes && q in s'.nodes && StillLeads(s.nodes[l], s'.nodes[l]) && CaughtUp(s', l, q)
    ensures s'.nodes[q].commitIndex >= s.nodes[l].commitIndex
    ensures var y := s.nodes[l];
            s.nodes[q].out + [Snapshot(y.disk.snapshot, y.snapIndex, y.snapTerm)] <= s'.nodes[q].out
  {
    var y := s.nodes[l];
    NodePresent(enc, run, run, s, l);
    SnapshotLogIs(y);
    var run1, s1 := Ships(enc, run, run, s, l, q, chunks);
    run', s' := RestFollows(enc, run, run1, s1, l, q);
    assert PassedOn(s1.nodes[q], s'.nodes[q]);
  }
}
