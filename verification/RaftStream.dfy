/**
 What a node hands to its application. Beyond agreeing with every other node (RaftTheorems), the stream of
 one node is gapless: after any prefix of it the application stands at the state of one log index, also
 when chunked snapshots from several senders interrupt it.

 `enc` says which bytes the application writes as the snapshot of the state after some entries.
 */
module RaftStream {

  import opened Bytes
  import opened RaftTypes
  import opened RaftSpec
  import opened RaftCore
  import opened RaftCoreProofs
  import opened RaftCluster
  import opened RaftInvariant

  type Encoder = seq<Entry> -> Bytes

  // ---------------------------------------------------------------- the stream of one node

  function IndexOf(m: ApplyMsg): nat {
    match m
    case Command(e) => e.index
    case Snapshot(_, index, _) => index
  }

  /** The index an application stands at that started at `base` and took in `out`. */
  function Position(base: nat, out: seq<ApplyMsg>): nat {
    if out == [] then base else IndexOf(out[|out| - 1])
  }

  /** Each command is the one after the current position; a snapshot never leads back. */
  ghost predicate Follows(at: nat, m: ApplyMsg) {
    match m
    case Command(e) => e.index == at + 1
    case Snapshot(_, index, _) => index >= at
  }

  ghost predicate Gapless(base: nat, out: seq<ApplyMsg>) {
    forall p: nat :: p < |out| ==> Follows(Position(base, out[..p]), out[p])
  }

  /** The message tells what the first k entries of the log say. */
  ghost predicate Told(enc: Encoder, log: seq<Entry>, k: nat, m: ApplyMsg)
    requires k <= |log|
  {
    match m
    case Command(e) => 0 < e.index <= k && log[e.index - 1] == e
    case Snapshot(data, index, _) => index <= k && data == enc(log[..index])
  }

  /** No snapshot that was handed out is newer than the one the node has. */
  ghost predicate SnapshotsUpTo(index: nat, out: seq<ApplyMsg>) {
    forall p :: 0 <= p < |out| && out[p].Snapshot? ==> out[p].index <= index
  }

  ghost predicate StreamOk(enc: Encoder, x: NodeState) {
    && x.base <= x.snapIndex <= x.commitIndex <= |x.log|
    && Gapless(x.base, x.out) && Position(x.base, x.out) == x.commitIndex
    && (forall p :: 0 <= p < |x.out| ==> Told(enc, x.log, x.commitIndex, x.out[p]))
    && SnapshotsUpTo(x.snapIndex, x.out)
    && (x.snapIndex > 0 ==> x.disk.snapshot == enc(x.log[..x.snapIndex]))
  }

  lemma StillTold(enc: Encoder, log: seq<Entry>, k: nat, log': seq<Entry>, k': nat, m: ApplyMsg)
    requires k <= k' <= |log'| && Agree(log', log, k) && Told(enc, log, k, m)
    ensures Told(enc, log', k', m)
  {
    if m.Snapshot? {
      assert log'[..m.index] == log[..m.index];
    }
  }

  /** Handing out one more message that follows on. */
  lemma GaplessStep(base: nat, out: seq<ApplyMsg>, m: ApplyMsg)
    requires Gapless(base, out) && Follows(Position(base, out), m)
    ensures Gapless(base, out + [m]) && Position(base, out + [m]) == IndexOf(m)
  {
    var out' := out + [m];
    assert out'[..|out|] == out;
    forall p: nat | p < |out'| ensures Follows(Position(base, out'[..p]), out'[p]) {
      if p < |out| {
        assert out'[..p] == out[..p];
      }
    }
  }

  lemma OneMoreCommand(out: seq<ApplyMsg>, log: seq<Entry>, k: nat, k': nat)
    requires k < k' <= |log|
    ensures out + Commands(log[k..k']) == (out + Commands(log[k..k' - 1])) + [Command(log[k' - 1])]
  {
    assert Commands(log[k..k']) == Commands(log[k..k' - 1]) + [Command(log[k' - 1])];
  }

  /** Handing out the entries from index k up to k'. */
  lemma {:induction false} GaplessEntries(base: nat, out: seq<ApplyMsg>, log: seq<Entry>, k: nat, k': nat)
    requires Gapless(base, out) && Position(base, out) == k <= k' <= |log| && Indexed(log)
    ensures var out' := out + Commands(log[k..k']); Gapless(base, out') && Position(base, out') == k'
    decreases k' - k
  {
    if k == k' {
      assert out + Commands(log[k..k']) == out;
    } else {
      GaplessEntries(base, out, log, k, k' - 1);
      OneMoreCommand(out, log, k, k');
      GaplessStep(base, out + Commands(log[k..k' - 1]), Command(log[k' - 1]));
    }
  }

  // ---------------------------------------------------------------- what a step does to it

  /** The commit index moved on, and the entries passed were handed out; snapshots were not touched. */
  ghost predicate Advanced(x: NodeState, x': NodeState) {
    && x'.base == x.base && x.commitIndex <= x'.commitIndex <= |x'.log|
    && x'.out == x.out + Commands(x'.log[x.commitIndex..x'.commitIndex])
    && x'.snapIndex == x.snapIndex && x'.disk.snapshot == x.disk.snapshot
  }

  lemma AdvancedTold(enc: Encoder, x: NodeState, x': NodeState, p: nat)
    requires StreamOk(enc, x) && Advanced(x, x') && Agree(x'.log, x.log, x.commitIndex) && Indexed(x'.log)
    requires p < |x'.out|
    ensures Told(enc, x'.log, x'.commitIndex, x'.out[p])
  {
    if p < |x.out| {
      StillTold(enc, x.log, x.commitIndex, x'.log, x'.commitIndex, x.out[p]);
    }
  }

  lemma AdvancedStreams(enc: Encoder, x: NodeState, x': NodeState)
    requires StreamOk(enc, x) && Advanced(x, x') && Agree(x'.log, x.log, x.commitIndex) && Indexed(x'.log)
    ensures StreamOk(enc, x')
  {
    GaplessEntries(x.base, x.out, x'.log, x.commitIndex, x'.commitIndex);
    forall p | 0 <= p < |x'.out| ensures Told(enc, x'.log, x'.commitIndex, x'.out[p]) {
      AdvancedTold(enc, x, x', p);
    }
    assert x'.log[..x.snapIndex] == x.log[..x.snapIndex];
  }

  lemma CompactedStreams(enc: Encoder, x: NodeState, data: Bytes, index: nat, term: nat)
    requires StreamOk(enc, x) && (index <= |x.log| ==> data == enc(x.log[..index]))
    ensures StreamOk(enc, CompactLog(x, data, index, term))
  {
  }

  /** The log was replaced by what the snapshot stands for, and the snapshot was handed out. */
  ghost predicate TookSnapshot(enc: Encoder, x: NodeState, x': NodeState) {
    && x'.base == x.base && x.commitIndex <= x'.commitIndex == x'.snapIndex == |x'.log| && x.snapIndex <= x'.snapIndex
    && x'.disk.snapshot == enc(x'.log)
    && x'.out == x.out + [Snapshot(x'.disk.snapshot, x'.snapIndex, x'.snapTerm)]
  }

  lemma InstalledStreams(enc: Encoder, x: NodeState, x': NodeState)
    requires StreamOk(enc, x) && TookSnapshot(enc, x, x') && Agree(x'.log, x.log, x.commitIndex)
    ensures StreamOk(enc, x')
  {
    assert x'.log[..x'.snapIndex] == x'.log;
    GaplessStep(x.base, x.out, Snapshot(x'.disk.snapshot, x'.snapIndex, x'.snapTerm));
    forall p | 0 <= p < |x'.out| ensures Told(enc, x'.log, x'.commitIndex, x'.out[p]) {
      if p < |x.out| {
        StillTold(enc, x.log, x.commitIndex, x'.log, x'.commitIndex, x.out[p]);
      }
    }
  }

  lemma RestartedStreams(enc: Encoder, x: NodeState)
    requires StreamOk(enc, x) && DiskOk(x) && DiskInStep(x)
    ensures StreamOk(enc, Restart(x.disk, x.log[..x.snapIndex]))
  {
    assert x.log[..x.snapIndex] + x.log[x.snapIndex..] == x.log;
    assert SnapshotLog(x.log[..x.snapIndex], x.snapIndex, x.snapTerm) == x.log[..x.snapIndex];
  }

  // ---------------------------------------------------------------- committed prefixes

  /** l was committed, from the first entry to the last. */
  ghost predicate Settles(c: Core, l: seq<Entry>) { exists bound: nat :: CommittedUpTo(c, l, |l|, bound) }

  lemma SettlesCarries(c: Core, c': Core, l: seq<Entry>)
    requires Grows(c, c') && Settles(c, l)
    ensures Settles(c', l)
  {
    var bound: nat :| CommittedUpTo(c, l, |l|, bound);
    CommittedUpToGrows(c, c', l, l, |l|, bound, bound);
  }

  /** Only one sequence of a given length was ever committed. */
  lemma CommittedPrefixesAgree(c: Core, a: seq<Entry>, k: nat, s: nat, b: seq<Entry>, m: nat, t: nat)
    requires Complete(c) && CommittedUpTo(c, a, k, s) && CommittedUpTo(c, b, m, t) && k <= m
    ensures Agree(a, b, k)
  {
    if k > 0 {
      var t0: nat, i: nat :| t0 <= s && CommittedBy(c, a, k, t0, i);
      var u0: nat, j: nat :| u0 <= t && CommittedBy(c, b, m, u0, j);
      CommittedAgree(c, t0, i, u0, j, k);
    }
  }

  lemma SettlesOnce(c: Core, l: seq<Entry>, l': seq<Entry>)
    requires Complete(c) && Settles(c, l) && Settles(c, l') && |l| == |l'|
    ensures l == l'
  {
    var s: nat :| CommittedUpTo(c, l, |l|, s);
    var t: nat :| CommittedUpTo(c, l', |l'|, t);
    CommittedPrefixesAgree(c, l, |l|, s, l', |l'|, t);
  }

  lemma PrefixSettles(c: Core, log: seq<Entry>, k: nat, i: nat, bound: nat)
    requires CommittedUpTo(c, log, k, bound) && i <= k <= |log|
    ensures Settles(c, log[..i])
  {
    CommittedUpToLess(c, log, k, i, bound);
    if i > 0 {
      var t: nat, j: nat :| t <= bound && CommittedBy(c, log, i, t, j);
      assert CommittedBy(c, log[..i], i, t, j);
    }
    assert CommittedUpTo(c, log[..i], |log[..i]|, bound);
  }

  // ---------------------------------------------------------------- snapshot transfer

  /** The chunk is the part of `full` it claims to be. */
  ghost predicate ChunkOf(full: Bytes, offset: nat, data: Bytes, done: bool) {
    offset + |data| <= |full| && data == full[offset..offset + |data|] && (done ==> offset + |data| == |full|)
  }

  ghost predicate ChunkFor(c: Core, enc: Encoder, req: SnapshotRequest, l: seq<Entry>) {
    |l| == req.lastIncludedIndex && Settles(c, l) && ChunkOf(enc(l), req.offset, req.data, req.done)
  }

  ghost predicate ChunkTrue(c: Core, enc: Encoder, req: SnapshotRequest) {
    exists l: seq<Entry> :: ChunkFor(c, enc, req, l)
  }

  ghost predicate BufferFor(c: Core, enc: Encoder, t: Transfer, l: seq<Entry>)
    requires t.Receiving?
  {
    |l| == t.index && Settles(c, l) && t.data <= enc(l)
  }

  /** What was put together so far is the beginning of the snapshot of what was committed. */
  ghost predicate BufferTrue(c: Core, enc: Encoder, t: Transfer) {
    t.Receiving? ==> exists l: seq<Entry> :: BufferFor(c, enc, t, l)
  }

  lemma ChunkTrueCarries(c: Core, c': Core, enc: Encoder, req: SnapshotRequest)
    requires Grows(c, c') && ChunkTrue(c, enc, req)
    ensures ChunkTrue(c', enc, req)
  {
    var l: seq<Entry> :| ChunkFor(c, enc, req, l);
    SettlesCarries(c, c', l);
    assert ChunkFor(c', enc, req, l);
  }

  lemma BufferTrueCarries(c: Core, c': Core, enc: Encoder, t: Transfer)
    requires Grows(c, c') && BufferTrue(c, enc, t)
    ensures BufferTrue(c', enc, t)
  {
    if t.Receiving? {
      var l: seq<Entry> :| BufferFor(c, enc, t, l);
      SettlesCarries(c, c', l);
      assert BufferFor(c', enc, t, l);
    }
  }

  /**
   Whichever stream the chunk belongs to, the buffer stays the beginning of the one true snapshot;
   the final chunk, if it fits, makes it the whole.
   */
  lemma ReceiveKeepsTrue(c: Core, enc: Encoder, t: Transfer, req: SnapshotRequest, l: seq<Entry>)
    requires Complete(c) && BufferTrue(c, enc, t) && ChunkFor(c, enc, req, l)
    ensures BufferTrue(c, enc, ReceiveChunk(t, req))
    ensures ChunkFits(t, req) ==>
              var t' := ReceiveChunk(t, req);
              t'.Receiving? && BufferFor(c, enc, t', l) && (req.done ==> t'.data == enc(l))
  {
    if ChunkFits(t, req) {
      if req.offset != 0 {
        var k: seq<Entry> :| BufferFor(c, enc, t, k);
        SettlesOnce(c, k, l);
      }
      var t' := ReceiveChunk(t, req);
      assert t'.data == enc(l)[..req.offset] + req.data;
      assert BufferFor(c, enc, t', l);
    }
  }
}
