/** Sending a snapshot in chunks: the loop on the leader's side, and what an undisturbed transfer does. */
module RaftTransfer {

  import opened Bytes
  import opened RaftTypes
  import opened RaftSpec
  import opened RaftStream

  const SNAPSHOT_CHUNK_SIZE: nat := 1048576

  /** The request carrying the bytes from `offset` on; `head` fixes term, sender and snapshot. */
  function Chunk(head: SnapshotRequest, data: Bytes, offset: nat): SnapshotRequest
    requires offset <= |data|
  {
    var end := Min(offset + SNAPSHOT_CHUNK_SIZE, |data|);
    head.(offset := offset, data := data[offset..end], done := end >= |data|)
  }

  /** The chunks of the data, from the first byte to the last. */
  ghost predicate IsChunking(head: SnapshotRequest, data: Bytes, chunks: seq<SnapshotRequest>) {
    && chunks != [] && |data| <= SNAPSHOT_CHUNK_SIZE * |chunks|
    && (|chunks| > 1 ==> SNAPSHOT_CHUNK_SIZE * (|chunks| - 1) < |data|)
    && forall i :: 0 <= i < |chunks| ==> chunks[i] == Chunk(head, data, SNAPSHOT_CHUNK_SIZE * i)
  }

  /** The requests sendSnapshotToPeer makes when each is answered with success. */
  method SendSnapshot(head: SnapshotRequest, data: Bytes) returns (chunks: seq<SnapshotRequest>)
    ensures IsChunking(head, data, chunks)
    ensures forall i :: 0 <= i < |chunks| ==>
              ChunkOf(data, chunks[i].offset, chunks[i].data, chunks[i].done) && (chunks[i].done <==> i == |chunks| - 1)
  {
    chunks := [];
    var offset := 0;
    while true
      invariant offset == SNAPSHOT_CHUNK_SIZE * |chunks| <= |data| && (|chunks| > 0 ==> offset < |data|)
      invariant forall i :: 0 <= i < |chunks| ==>
                  chunks[i] == Chunk(head, data, SNAPSHOT_CHUNK_SIZE * i) && !chunks[i].done
      invariant forall i :: 0 <= i < |chunks| ==> ChunkOf(data, chunks[i].offset, chunks[i].data, chunks[i].done)
      decreases |data| - offset
    {
      var end := offset + SNAPSHOT_CHUNK_SIZE;
      if end > |data| {
        end := |data|;
      }
      var done := end >= |data|;
      chunks := chunks + [head.(offset := offset, data := data[offset..end], done := done)];
      if done {
        return;
      }
      offset := end;
    }
  }

  /** The follower handles the requests one after the other. */
  function Feed(x: NodeState, reqs: seq<SnapshotRequest>, covered: seq<Entry>): NodeState {
    if reqs == [] then x else HandleInstallSnapshot(Feed(x, reqs[..|reqs| - 1], covered), reqs[|reqs| - 1], covered).0
  }

  /** What the follower answers to the request it is fed last. */
  function AnswerTo(x: NodeState, reqs: seq<SnapshotRequest>, covered: seq<Entry>): SnapshotResponse
    requires reqs != []
  {
    HandleInstallSnapshot(Feed(x, reqs[..|reqs| - 1], covered), reqs[|reqs| - 1], covered).1
  }

  /** The follower has heard of the leader, and is in the middle of this very transfer. */
  ghost predicate Midway(x: NodeState, y: NodeState, head: SnapshotRequest, data: Bytes) {
    y == HearLeader(x, head.term, head.leaderId).(
      transfer := Receiving(head.lastIncludedIndex, head.lastIncludedTerm, data))
  }

  /** The follower has the snapshot, in memory and in storage, with the log it stands for, and has handed it out. */
  ghost predicate HasSnapshot(x: NodeState, y: NodeState, head: SnapshotRequest, data: Bytes, covered: seq<Entry>) {
    var index, term := head.lastIncludedIndex, head.lastIncludedTerm;
    && y.currentTerm == head.term && y.role == Follower && y.leaderId == head.leaderId && y.transfer == Idle
    && y.snapIndex == y.disk.snapIndex == index && y.snapTerm == y.disk.snapTerm == term && y.disk.snapshot == data
    && y.log == SnapshotLog(covered, index, term)
    && y.commitIndex >= index && y.commitIndex >= x.commitIndex
    && y.out == x.out + [Snapshot(data, index, term)]
  }

  /** What became of the follower with the request that brought the last of `data`. */
  ghost predicate Fed(x: NodeState, y: NodeState, resp: SnapshotResponse, head: SnapshotRequest, data: Bytes,
                      done: bool, covered: seq<Entry>) {
    && resp == SnapshotResponse(head.term, true)
    && if done then HasSnapshot(x, y, head, data, covered) else Midway(x, y, head, data)
  }

  lemma FirstChunk(x: NodeState, head: SnapshotRequest, data: Bytes, covered: seq<Entry>)
    requires x.currentTerm <= head.term && x.snapIndex < head.lastIncludedIndex
    ensures var req := Chunk(head, data, 0);
            var (y, resp) := HandleInstallSnapshot(x, req, covered);
            Fed(x, y, resp, head, data[..Min(SNAPSHOT_CHUNK_SIZE, |data|)], req.done, covered)
  {
    var end := Min(SNAPSHOT_CHUNK_SIZE, |data|);
    assert [] + data[0..end] == data[..end];
  }

  lemma HeardBefore(y: NodeState, req: SnapshotRequest)
    requires y.currentTerm == req.term && y.role == Follower && y.leaderId == req.leaderId
    ensures HearLeader(y, req.term, req.leaderId) == y
  {
  }

  lemma HeadHeard(x: NodeState, head: SnapshotRequest)
    requires x.currentTerm <= head.term
    ensures var h := HearLeader(x, head.term, head.leaderId);
            && h.currentTerm == head.term && h.role == Follower && h.leaderId == head.leaderId
            && h.snapIndex == x.snapIndex && h.log == x.log && h.commitIndex == x.commitIndex && h.out == x.out
  {
  }

  /** A chunk that goes on where the last one ended. */
  lemma FittingChunk(y: NodeState, req: SnapshotRequest, covered: seq<Entry>)
    requires y.currentTerm == req.term && y.role == Follower && y.leaderId == req.leaderId
    requires y.snapIndex < req.lastIncludedIndex && y.transfer.Receiving?
    requires y.transfer.index == req.lastIncludedIndex && |y.transfer.data| == req.offset > 0
    ensures var t := y.transfer.(data := y.transfer.data + req.data);
            HandleInstallSnapshot(y, req, covered)
              == (if req.done then Install(y, t, covered) else y.(transfer := t), SnapshotResponse(req.term, true))
  {
    HeardBefore(y, req);
  }

  lemma InstallIs(x: NodeState, y: NodeState, head: SnapshotRequest, data: Bytes, all: Bytes, covered: seq<Entry>)
    requires x.currentTerm <= head.term && Midway(x, y, head, data)
    ensures HasSnapshot(x, Install(y, y.transfer.(data := all), covered), head, all, covered)
  {
    HeadHeard(x, head);
  }

  lemma NextChunk(x: NodeState, y: NodeState, head: SnapshotRequest, data: Bytes, offset: nat, covered: seq<Entry>)
    requires 0 < offset <= |data| && x.currentTerm <= head.term && x.snapIndex < head.lastIncludedIndex
    requires Midway(x, y, head, data[..offset])
    ensures var req := Chunk(head, data, offset);
            var (z, resp) := HandleInstallSnapshot(y, req, covered);
            Fed(x, z, resp, head, data[..Min(offset + SNAPSHOT_CHUNK_SIZE, |data|)], req.done, covered)
  {
    var end := Min(offset + SNAPSHOT_CHUNK_SIZE, |data|);
    assert data[..offset] + data[offset..end] == data[..end];
    HeadHeard(x, head);
    FittingChunk(y, Chunk(head, data, offset), covered);
    InstallIs(x, y, head, data[..offset], data[..end], covered);
  }

  /** After k chunks the follower has the first of the data, or all of it, and has answered each with success. */
  lemma {:induction false} FedAfter(x: NodeState, head: SnapshotRequest, data: Bytes, chunks: seq<SnapshotRequest>,
                                    k: nat, covered: seq<Entry>)
    requires IsChunking(head, data, chunks) && 0 < k <= |chunks|
    requires x.currentTerm <= head.term && x.snapIndex < head.lastIncludedIndex
    ensures Fed(x, Feed(x, chunks[..k], covered), AnswerTo(x, chunks[..k], covered), head,
                data[..Min(SNAPSHOT_CHUNK_SIZE * k, |data|)], k == |chunks|, covered)
  {
    assert chunks[..k][..k - 1] == chunks[..k - 1];
    if k == 1 {
      FirstChunk(x, head, data, covered);
    } else {
      FedAfter(x, head, data, chunks, k - 1, covered);
      NextChunk(x, Feed(x, chunks[..k - 1], covered), head, data, SNAPSHOT_CHUNK_SIZE * (k - 1), covered);
    }
  }

  /**
   A transfer that arrives in order installs exactly the data, whatever buffer an earlier transfer left
   behind, and however many chunks it takes; each is answered with success.
   */
  lemma CleanTransferInstalls(x: NodeState, head: SnapshotRequest, data: Bytes, chunks: seq<SnapshotRequest>,
                              covered: seq<Entry>)
    requires IsChunking(head, data, chunks) && x.currentTerm <= head.term && x.snapIndex < head.lastIncludedIndex
    ensures HasSnapshot(x, Feed(x, chunks, covered), head, data, covered)
    ensures forall k :: 0 < k <= |chunks| ==> AnswerTo(x, chunks[..k], covered) == SnapshotResponse(head.term, true)
  {
    forall k | 0 < k <= |chunks| ensures AnswerTo(x, chunks[..k], covered) == SnapshotResponse(head.term, true) {
      FedAfter(x, head, data, chunks, k, covered);
    }
    FedAfter(x, head, data, chunks, |chunks|, covered);
    assert chunks[..|chunks|] == chunks && data[..|data|] == data;
  }

  /**
   Whatever chunk arrives, in whatever order: one that is confirmed is kept where it belongs, in the buffer or, being
   the last, in the snapshot in storage; or the node has the snapshot already.
   */
  lemma ConfirmedIsKept(x: NodeState, req: SnapshotRequest, covered: seq<Entry>)
    requires HandleInstallSnapshot(x, req, covered).1.success
    ensures var y, end := HandleInstallSnapshot(x, req, covered).0, req.offset + |req.data|;
            || x.snapIndex >= req.lastIncludedIndex
            || (if req.done
                then y.snapIndex == req.lastIncludedIndex && |y.disk.snapshot| == end
                     && y.disk.snapshot[req.offset..] == req.data
                else y.transfer.Receiving? && y.transfer.index == req.lastIncludedIndex && |y.transfer.data| == end
                     && y.transfer.data[req.offset..] == req.data)
  {
  }

  lemma StaleChunk(x: NodeState, req: SnapshotRequest, covered: seq<Entry>)
    requires x.currentTerm <= req.term && x.snapIndex >= req.lastIncludedIndex
    ensures var h := HearLeader(x, req.term, req.leaderId);
            && HandleInstallSnapshot(x, req, covered) == (h, SnapshotResponse(req.term, true))
            && h.currentTerm == req.term && h.snapIndex == x.snapIndex && HearLeader(h, req.term, req.leaderId) == h
  {
  }

  /** A transfer to a node that has this snapshot or a later one changes nothing of it, and is confirmed as well. */
  lemma {:induction false} RepeatedTransferIsConfirmed(x: NodeState, head: SnapshotRequest, data: Bytes,
                                                       chunks: seq<SnapshotRequest>, k: nat, covered: seq<Entry>)
    requires IsChunking(head, data, chunks) && 0 < k <= |chunks|
    requires x.currentTerm <= head.term && x.snapIndex >= head.lastIncludedIndex
    ensures Feed(x, chunks[..k], covered) == HearLeader(x, head.term, head.leaderId)
    ensures AnswerTo(x, chunks[..k], covered) == SnapshotResponse(head.term, true)
  {
    assert chunks[..k][..k - 1] == chunks[..k - 1];
    StaleChunk(x, chunks[0], covered);
    if k > 1 {
      RepeatedTransferIsConfirmed(x, head, data, chunks, k - 1, covered);
      StaleChunk(Feed(x, chunks[..k - 1], covered), chunks[k - 1], covered);
    }
  }
}
