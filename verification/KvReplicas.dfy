/**
 The replicated store: the state machine of each node takes in what the node hands out. Every command is applied once
 and in order. What the map holds is decided by the committed entries, by where the table of sequence numbers was last
 lost to a snapshot, and by the map the machine was started on: a restarted machine has what its tables had.
 */
module KvReplicas {

  import opened Wrappers
  import opened Bytes
  import opened RaftTypes
  import opened RaftCore
  import opened RaftCoreProofs
  import opened RaftCluster
  import opened RaftInvariant
  import opened RaftElectionSteps
  import opened RaftSafety
  import opened RaftTheorems
  import opened RaftStream
  import opened RaftReplicas
  import opened RaftLimits
  import opened StateMachine
  import opened Replay

  function TakeIn(parse: Parser, decode: Decoder, s: Machine, out: seq<ApplyMsg>): Machine {
    if out == [] then s else Dispatch(parse, decode, TakeIn(parse, decode, s, out[..|out| - 1]), out[|out| - 1])
  }

  ghost predicate SnapshotsDecode(decode: Decoder, out: seq<ApplyMsg>) {
    forall p :: 0 <= p < |out| && out[p].Snapshot? ==> decode(out[p].data).Some?
  }

  // ---------------------------------------------------------------- exactly once, in order

  lemma GaplessPrefix(base: nat, out: seq<ApplyMsg>, p: nat)
    requires Gapless(base, out) && p <= |out|
    ensures Gapless(base, out[..p])
  {
    forall q: nat | q < p ensures Follows(Position(base, out[..p][..q]), out[..p][q]) {
      assert out[..p][..q] == out[..q];
    }
  }

  /** After taking in a gapless stream the machine stands where the stream leads. */
  lemma {:induction false} KeepsPosition(parse: Parser, decode: Decoder, s: Machine, base: nat, out: seq<ApplyMsg>)
    requires Gapless(base, out) && SnapshotsDecode(decode, out) && s.lastApplied <= base
    ensures TakeIn(parse, decode, s, out).lastApplied == if out == [] then s.lastApplied else Position(base, out)
  {
    if out != [] {
      var n := |out| - 1;
      GaplessPrefix(base, out, n);
      KeepsPosition(parse, decode, s, base, out[..n]);
      assert Follows(Position(base, out[..n]), out[n]);
    }
  }

  /**
   Exactly once, in order: the command at any place of a gapless stream is for the index right after the one the
   machine stands at, and it is not taken for one applied before. The first after a start is for base + 1.
   */
  lemma AppliesNextIndex(parse: Parser, decode: Decoder, s: Machine, base: nat, out: seq<ApplyMsg>, p: nat)
    requires Gapless(base, out) && SnapshotsDecode(decode, out) && s.lastApplied <= base
    requires p < |out| && out[p].Command?
    ensures var before := TakeIn(parse, decode, s, out[..p]);
            && out[p].entry.index == (if p == 0 then base else before.lastApplied) + 1
            && out[p].entry.index > before.lastApplied
            && TakeIn(parse, decode, s, out[..p + 1]) == ApplyEntry(parse, before, out[p].entry)
            && TakeIn(parse, decode, s, out[..p + 1]).lastApplied == out[p].entry.index
  {
    GaplessPrefix(base, out, p);
    KeepsPosition(parse, decode, s, base, out[..p]);
    assert Follows(Position(base, out[..p]), out[p]);
    assert out[..p + 1][..p] == out[..p];
  }

  lemma InstallHandsOut(x: NodeState, req: SnapshotRequest, covered: seq<Entry>)
    requires Installs(x, req)
    ensures var x' := AfterInstall(x, req, covered);
            && x'.out == x.out + [Snapshot(x'.disk.snapshot, req.lastIncludedIndex, x'.snapTerm)]
            && x'.commitIndex == if req.lastIncludedIndex > x.commitIndex then req.lastIncludedIndex else x.commitIndex
  {
  }

  lemma TakesLast(parse: Parser, decode: Decoder, s: Machine, out: seq<ApplyMsg>, msg: ApplyMsg)
    ensures TakeIn(parse, decode, s, out + [msg]) == Dispatch(parse, decode, TakeIn(parse, decode, s, out), msg)
  {
    assert (out + [msg])[..|out|] == out;
  }

  /**
   An installed snapshot leads the application to the node's commit index exactly if it can be decoded or is not ahead
   of the application; in the latter case the application does not take it in, and nothing changes.
   */
  lemma InstallLeadsToCommitIff(parse: Parser, decode: Decoder, enc: Encoder, s: Machine, x: NodeState,
                                req: SnapshotRequest, covered: seq<Entry>)
    requires StreamOk(enc, x) && SnapshotsDecode(decode, x.out) && s.lastApplied <= x.base && Installs(x, req)
    ensures var x' := AfterInstall(x, req, covered);
            var stale := req.lastIncludedIndex <= x.commitIndex;
            && (TakeIn(parse, decode, s, x'.out).lastApplied == x'.commitIndex
                <==> stale || decode(x'.disk.snapshot).Some?)
            && (stale ==> TakeIn(parse, decode, s, x'.out) == TakeIn(parse, decode, s, x.out))
  {
    KeepsPosition(parse, decode, s, x.base, x.out);
    InstallHandsOut(x, req, covered);
    var x' := AfterInstall(x, req, covered);
    TakesLast(parse, decode, s, x.out, Snapshot(x'.disk.snapshot, req.lastIncludedIndex, x'.snapTerm));
  }

  // ---------------------------------------------------------------- the replicated map

  /** A snapshot taken after some entries decodes to what those entries amount to. */
  ghost predicate Restores(parse: Parser, decode: Decoder, enc: Encoder) {
    forall l: seq<Entry> :: decode(enc(l)) == Some(Effect(parse, l, |l|, map[]))
  }

  /** Where a machine that started at 0, below a node that started at base, stands. */
  function Stood(base: nat, out: seq<ApplyMsg>): nat { if out == [] then 0 else Position(base, out) }

  /** The message is a snapshot that is ahead of the machine. */
  predicate Taken(base: nat, out: seq<ApplyMsg>, msg: ApplyMsg) { msg.Snapshot? && msg.index > Stood(base, out) }

  /** From which entry on the table knows the entries: behind the last snapshot that was taken in. */
  function LostAt(base: nat, out: seq<ApplyMsg>): nat {
    if out == [] then base else
    var n := |out| - 1;
    if Taken(base, out[..n], out[n]) then out[n].index else LostAt(base, out[..n])
  }

  /** A snapshot took the place of whatever the machine was started on. */
  predicate Renewed(base: nat, out: seq<ApplyMsg>) {
    out != [] && (Taken(base, out[..|out| - 1], out[|out| - 1]) || Renewed(base, out[..|out| - 1]))
  }

  lemma {:induction false} LostWhereStarted(base: nat, out: seq<ApplyMsg>)
    requires !Renewed(base, out)
    ensures LostAt(base, out) == base
  {
    if out != [] {
      LostWhereStarted(base, out[..|out| - 1]);
    }
  }

  lemma {:induction false} NotRenewed(base: nat, out: seq<ApplyMsg>)
    requires forall p :: 0 <= p < |out| ==> out[p].Command?
    ensures !Renewed(base, out) && LostAt(base, out) == base
  {
    if out != [] {
      NotRenewed(base, out[..|out| - 1]);
    }
  }

  /** What the entries from m on are performed on: the snapshot of the first m, or what the machine was started on. */
  ghost function Ground(parse: Parser, log: seq<Entry>, m: nat, renewed: bool, d: Data): Data
    requires m <= |log|
  {
    if renewed then Effect(parse, log, m, map[]) else d
  }

  /** The machine has performed the entries from m to n on its ground, and its table knows these entries. */
  ghost predicate Holds(parse: Parser, log: seq<Entry>, m: nat, n: nat, renewed: bool, d: Data, s: Machine) {
    m <= n <= |log| && HasPerformed(parse, log, m, n, Ground(parse, log, m, renewed, d), s)
  }

  lemma CountsInPrefix(parse: Parser, log: seq<Entry>, k: nat, m: nat, i: nat)
    requires i < k <= |log|
    ensures CountsFrom(parse, log[..k], m, i) <==> CountsFrom(parse, log, m, i)
  {
    forall j: nat, c | j < k ensures ByClient(parse, log[..k], j, c) <==> ByClient(parse, log, j, c) {
    }
  }

  lemma {:induction false} EffectOfPrefix(parse: Parser, log: seq<Entry>, k: nat, n: nat)
    requires n <= k <= |log|
    ensures Effect(parse, log[..k], n, map[]) == Effect(parse, log, n, map[])
  {
    if n > 0 {
      EffectOfPrefix(parse, log, k, n - 1);
      CountsInPrefix(parse, log, k, 0, n - 1);
    }
  }

  lemma SnapshotRestores(parse: Parser, decode: Decoder, enc: Encoder, log: seq<Entry>, index: nat)
    requires Restores(parse, decode, enc) && index <= |log|
    ensures decode(enc(log[..index])) == Some(Effect(parse, log, index, map[]))
  {
    var l := log[..index];
    assert decode(enc(l)) == Some(Effect(parse, l, |l|, map[]));
    EffectOfPrefix(parse, log, index, index);
  }

  lemma TracksSnapshot(parse: Parser, decode: Decoder, enc: Encoder, log: seq<Entry>, s: Machine, m: nat, at: nat,
                       renewed: bool, d: Data, index: nat)
    requires Restores(parse, decode, enc) && Holds(parse, log, m, at, renewed, d, s)
    requires at <= index <= |log| && (s.lastApplied == at || s.lastApplied == 0)
    ensures var s' := ApplySnapshot(decode, s, enc(log[..index]), index);
            var taken := index > s.lastApplied;
            Holds(parse, log, if taken then index else m, index, taken || renewed, d, s') && s'.lastApplied == index
  {
    SnapshotRestores(parse, decode, enc, log, index);
  }

  lemma TracksCommand(parse: Parser, log: seq<Entry>, s: Machine, m: nat, at: nat, renewed: bool, d: Data)
    requires at < |log| && log[at].index == at + 1 > s.lastApplied && Holds(parse, log, m, at, renewed, d, s)
    ensures var s' := ApplyEntry(parse, s, log[at]);
            Holds(parse, log, m, at + 1, renewed, d, s') && s'.lastApplied == at + 1
  {
    PerformsNext(parse, log, m, at, Ground(parse, log, m, renewed, d), s);
  }

  /** The stream tells of the log and nothing else. */
  ghost predicate TellsOf(enc: Encoder, log: seq<Entry>, out: seq<ApplyMsg>) {
    forall p :: 0 <= p < |out| ==> Told(enc, log, |log|, out[p])
  }

  lemma LostNext(base: nat, out: seq<ApplyMsg>, p: nat)
    requires p < |out|
    ensures var taken := Taken(base, out[..p], out[p]);
            && LostAt(base, out[..p + 1]) == (if taken then out[p].index else LostAt(base, out[..p]))
            && (Renewed(base, out[..p + 1]) <==> taken || Renewed(base, out[..p]))
    ensures Position(base, out[..p + 1]) == Stood(base, out[..p + 1]) == IndexOf(out[p])
  {
    assert out[..p + 1][..p] == out[..p];
  }

  lemma TakesNext(parse: Parser, decode: Decoder, s: Machine, out: seq<ApplyMsg>, p: nat)
    requires p < |out|
    ensures TakeIn(parse, decode, s, out[..p + 1])
         == Dispatch(parse, decode, TakeIn(parse, decode, s, out[..p]), out[p])
  {
    TakesLast(parse, decode, s, out[..p], out[p]);
    assert out[..p + 1] == out[..p] + [out[p]];
  }

  lemma MessageIs(parse: Parser, decode: Decoder, enc: Encoder, log: seq<Entry>, s: Machine, at: nat, msg: ApplyMsg)
    requires Indexed(log) && Follows(at, msg) && Told(enc, log, |log|, msg)
    ensures match msg
            case Command(e) =>
              at < |log| && e.index == at + 1 && Dispatch(parse, decode, s, msg) == ApplyEntry(parse, s, log[at])
            case Snapshot(_, index, _) =>
              && at <= index <= |log|
              && Dispatch(parse, decode, s, msg) == ApplySnapshot(decode, s, enc(log[..index]), index)
  {
  }

  /** One more message of a stream that tells of the log. */
  lemma TracksMessage(parse: Parser, decode: Decoder, enc: Encoder, log: seq<Entry>, s: Machine, m: nat, at: nat,
                      renewed: bool, d: Data, msg: ApplyMsg)
    requires Restores(parse, decode, enc) && Indexed(log) && Holds(parse, log, m, at, renewed, d, s)
    requires s.lastApplied == at || s.lastApplied == 0
    requires Follows(at, msg) && Told(enc, log, |log|, msg)
    ensures var s' := Dispatch(parse, decode, s, msg);
            var taken := msg.Snapshot? && msg.index > s.lastApplied;
            && Holds(parse, log, if taken then msg.index else m, IndexOf(msg), taken || renewed, d, s')
            && s'.lastApplied == IndexOf(msg)
  {
    MessageIs(parse, decode, enc, log, s, at, msg);
    if msg.Command? {
      TracksCommand(parse, log, s, m, at, renewed, d);
    } else {
      TracksSnapshot(parse, decode, enc, log, s, m, at, renewed, d, msg.index);
    }
  }

  /** What the machine holds after the first p messages, whatever map it was started on. */
  lemma {:induction false} TracksLog(parse: Parser, decode: Decoder, enc: Encoder, log: seq<Entry>, base: nat,
                                     out: seq<ApplyMsg>, d: Data, p: nat)
    requires Gapless(base, out) && TellsOf(enc, log, out) && Indexed(log) && Restores(parse, decode, enc)
    requires base <= |log| && p <= |out|
    ensures var s := TakeIn(parse, decode, Machine(d, 0, map[]), out[..p]);
            && Holds(parse, log, LostAt(base, out[..p]), Position(base, out[..p]), Renewed(base, out[..p]), d, s)
            && s.lastApplied == Stood(base, out[..p])
  {
    if p > 0 {
      var q := p - 1;
      TracksLog(parse, decode, enc, log, base, out, d, q);
      var at, m := Position(base, out[..q]), LostAt(base, out[..q]);
      var s := TakeIn(parse, decode, Machine(d, 0, map[]), out[..q]);
      TracksMessage(parse, decode, enc, log, s, m, at, Renewed(base, out[..q]), d, out[q]);
      LostNext(base, out, q);
      TakesNext(parse, decode, Machine(d, 0, map[]), out, q);
    }
  }

  lemma {:induction false} StreamLeadsOn(base: nat, out: seq<ApplyMsg>)
    requires Gapless(base, out)
    ensures base <= Position(base, out)
  {
    if out != [] {
      var n := |out| - 1;
      GaplessPrefix(base, out, n);
      StreamLeadsOn(base, out[..n]);
      assert Follows(Position(base, out[..n]), out[n]);
    }
  }

  /** What node n has committed. */
  ghost function CommittedLog(x: NodeState): seq<Entry> {
    if x.commitIndex <= |x.log| then x.log[..x.commitIndex] else x.log
  }

  /** A node starts within what it has committed. */
  lemma StartIsCommitted(enc: Encoder, run: seq<Cluster>, i: nat, n: NodeId)
    requires IsFaithfulRun(enc, run) && i < |run| && n in run[i].nodes
    ensures run[i].nodes[n].base <= |CommittedLog(run[i].nodes[n])|
  {
    StreamIsGapless(enc, run, i, n);
    StreamLeadsOn(run[i].nodes[n].base, run[i].nodes[n].out);
  }

  lemma TellsOfCommitted(enc: Encoder, x: NodeState)
    requires StreamOk(enc, x)
    ensures TellsOf(enc, CommittedLog(x), x.out)
  {
    forall p | 0 <= p < |x.out| ensures Told(enc, CommittedLog(x), |CommittedLog(x)|, x.out[p]) {
      StillTold(enc, x.log, x.commitIndex, CommittedLog(x), x.commitIndex, x.out[p]);
    }
  }

  /**
   d has, for every key that none of the entries from base to n touches, what the first base entries say. A machine that
   is started on it and takes in these entries then ends as one that is started on the effect of the first base entries.
   */
  ghost predicate StartsRight(parse: Parser, log: seq<Entry>, base: nat, n: nat, d: Data) {
    base <= n <= |log| ==> AgreeUntouched(parse, log, base, n, d, Effect(parse, log, base, map[]))
  }

  /** What it was started on does not show any more. */
  ghost predicate StartGone(parse: Parser, log: seq<Entry>, base: nat, out: seq<ApplyMsg>, d: Data) {
    Renewed(base, out) || StartsRight(parse, log, base, Position(base, out), d)
  }

  /** All of a node's stream, at any moment of any run. */
  lemma TracksNode(parse: Parser, decode: Decoder, enc: Encoder, run: seq<Cluster>, i: nat, n: NodeId, d: Data, p: nat)
    requires IsFaithfulRun(enc, run) && i < |run| && n in run[i].nodes && Restores(parse, decode, enc)
    requires p <= |run[i].nodes[n].out|
    ensures var x := run[i].nodes[n];
            var s := TakeIn(parse, decode, Machine(d, 0, map[]), x.out[..p]);
            && x.base <= |CommittedLog(x)| == x.commitIndex
            && Holds(parse, CommittedLog(x), LostAt(x.base, x.out[..p]), Position(x.base, x.out[..p]),
                     Renewed(x.base, x.out[..p]), d, s)
            && s.lastApplied == Stood(x.base, x.out[..p])
  {
    var x := run[i].nodes[n];
    StreamIsGapless(enc, run, i, n);
    StartIsCommitted(enc, run, i, n);
    LogsInPlace(run, i, n);
    TellsOfCommitted(enc, x);
    TracksLog(parse, decode, enc, CommittedLog(x), x.base, x.out, d, p);
  }

  /**
   The replicated state, whatever the clients sent and whatever map the machine was started on: having taken
   in all its node handed out, it has performed the entries since its table was lost on the last snapshot, or
   else on that map. This is what the committed entries amount to exactly if a snapshot came or the map was
   right for every key left alone.
   */
  lemma ReplicaHolds(parse: Parser, decode: Decoder, enc: Encoder, run: seq<Cluster>, i: nat, n: NodeId, d: Data)
    requires IsFaithfulRun(enc, run) && i < |run| && n in run[i].nodes && Restores(parse, decode, enc)
    ensures var x := run[i].nodes[n];
            var s := TakeIn(parse, decode, Machine(d, 0, map[]), x.out);
            var log, lost := CommittedLog(x), LostAt(x.base, x.out);
            && x.base <= lost <= |log| == x.commitIndex && (x.out != [] ==> s.lastApplied == x.commitIndex)
            && s.data == EffectFrom(parse, log, lost, |log|, Ground(parse, log, lost, Renewed(x.base, x.out), d))
            && (s.data == EffectForgetting(parse, log, lost, |log|) <==> StartGone(parse, log, x.base, x.out, d))
  {
    var x := run[i].nodes[n];
    StreamIsGapless(enc, run, i, n);
    TracksNode(parse, decode, enc, run, i, n, d, |x.out|);
    assert x.out[..|x.out|] == x.out;
    LostLeadsOn(x.base, x.out);
    if !Renewed(x.base, x.out) {
      LostWhereStarted(x.base, x.out);
      SameFromIff(parse, CommittedLog(x), x.base, |CommittedLog(x)|, d, Effect(parse, CommittedLog(x), x.base, map[]));
    }
  }

  lemma {:induction false} LostLeadsOn(base: nat, out: seq<ApplyMsg>)
    requires Gapless(base, out)
    ensures base <= LostAt(base, out)
  {
    if out != [] {
      var n := |out| - 1;
      GaplessPrefix(base, out, n);
      LostLeadsOn(base, out[..n]);
      StreamLeadsOn(base, out[..n]);
      assert Follows(Position(base, out[..n]), out[n]);
    }
  }

  /**
   Where losing the table does no harm, it holds the effect of exactly the committed entries under the same
   condition.
   */
  lemma ReplicaHoldsCommitted(parse: Parser, decode: Decoder, enc: Encoder, run: seq<Cluster>, i: nat, n: NodeId,
                              d: Data)
    requires IsFaithfulRun(enc, run) && i < |run| && n in run[i].nodes && Restores(parse, decode, enc)
    requires var x := run[i].nodes[n]; Harmless(parse, CommittedLog(x), LostAt(x.base, x.out), |CommittedLog(x)|)
    ensures var x := run[i].nodes[n];
            TakeIn(parse, decode, Machine(d, 0, map[]), x.out).data
              == Effect(parse, CommittedLog(x), |CommittedLog(x)|, map[])
            <==> StartGone(parse, CommittedLog(x), x.base, x.out, d)
  {
    var x := run[i].nodes[n];
    ReplicaHolds(parse, decode, enc, run, i, n, d);
    HarmlessKeeps(parse, CommittedLog(x), LostAt(x.base, x.out), |CommittedLog(x)|);
  }

  /** What a client reads there: what the last committed write that counts and touches the key says, or nothing. */
  lemma ReplicaReads(parse: Parser, decode: Decoder, enc: Encoder, run: seq<Cluster>, i: nat, n: NodeId, d: Data,
                     key: Key)
    requires IsFaithfulRun(enc, run) && i < |run| && n in run[i].nodes && Restores(parse, decode, enc)
    requires var x := run[i].nodes[n]; Harmless(parse, CommittedLog(x), LostAt(x.base, x.out), |CommittedLog(x)|)
    requires var x := run[i].nodes[n]; StartGone(parse, CommittedLog(x), x.base, x.out, d)
    ensures var x := run[i].nodes[n];
            var read := Lookup(TakeIn(parse, decode, Machine(d, 0, map[]), x.out).data, key);
            var log := CommittedLog(x);
            if TouchedFrom(parse, log, 0, |log|, key)
            then exists k: nat :: LastTouch(parse, log, 0, |log|, key, k) && read == Says(parse(log[k].data).value)
            else read == None
  {
    var log := CommittedLog(run[i].nodes[n]);
    ReplicaHoldsCommitted(parse, decode, enc, run, i, n, d);
    ReadsLastWrite(parse, log, 0, |log|, map[], key);
  }

  lemma HarmlessFromStart(parse: Parser, log: seq<Entry>)
    ensures Harmless(parse, log, 0, |log|)
  {
  }

  /** Every key of the map is put or deleted by one of the entries, by a write that counts. */
  ghost predicate AllTouched(parse: Parser, log: seq<Entry>, d: Data) {
    forall key :: key in d ==> TouchedFrom(parse, log, 0, |log|, key)
  }

  lemma StandsAtCommit(enc: Encoder, run: seq<Cluster>, i: nat, n: NodeId)
    requires IsFaithfulRun(enc, run) && i < |run| && n in run[i].nodes
    ensures var x := run[i].nodes[n]; Position(x.base, x.out) == x.commitIndex == |CommittedLog(x)|
  {
    StreamIsGapless(enc, run, i, n);
  }

  lemma StartsRightIff(parse: Parser, log: seq<Entry>, d: Data)
    ensures StartsRight(parse, log, 0, |log|, d) <==> AllTouched(parse, log, d)
  {
    if StartsRight(parse, log, 0, |log|, d) {
      forall key | key in d ensures TouchedFrom(parse, log, 0, |log|, key) {
        assert Lookup(d, key).Some? && Lookup(Effect(parse, log, 0, map[]), key).None?;
      }
    }
    if AllTouched(parse, log, d) {
      forall key
        ensures TouchedFrom(parse, log, 0, |log|, key) || Lookup(d, key) == Lookup(Effect(parse, log, 0, map[]), key)
      {
      }
    }
  }

  /**
   Without snapshots, retries and all: a machine that replays the log from the first entry, over whatever map it was
   started on, holds the effect of the committed entries exactly if these touch every key of that map.
   */
  lemma UnsnapshottedHoldsCommittedIff(parse: Parser, decode: Decoder, enc: Encoder, run: seq<Cluster>, i: nat,
                                       n: NodeId, d: Data)
    requires IsFaithfulRun(enc, run) && i < |run| && n in run[i].nodes && Restores(parse, decode, enc)
    requires run[i].nodes[n].base == 0
    requires forall p :: 0 <= p < |run[i].nodes[n].out| ==> run[i].nodes[n].out[p].Command?
    ensures var log := CommittedLog(run[i].nodes[n]);
            TakeIn(parse, decode, Machine(d, 0, map[]), run[i].nodes[n].out).data == Effect(parse, log, |log|, map[])
            <==> AllTouched(parse, log, d)
  {
    var x := run[i].nodes[n];
    NotRenewed(0, x.out);
    StandsAtCommit(enc, run, i, n);
    StartsRightIff(parse, CommittedLog(x), d);
    assert StartGone(parse, CommittedLog(x), 0, x.out, d) <==> AllTouched(parse, CommittedLog(x), d);
    HarmlessFromStart(parse, CommittedLog(x));
    ReplicaHoldsCommitted(parse, decode, enc, run, i, n, d);
  }

  /**
   Started on tables that were flushed at entry q, by a machine that lost its table at m: right from q on, if that
   machine was right at base. The tables of a node without snapshots (base 0) are always right again from there on.
   */
  lemma FlushedStartsRight(parse: Parser, log: seq<Entry>, m: nat, base: nat, q: nat, g: Data, d: Data)
    requires m <= base <= q <= |log| && d == EffectFrom(parse, log, m, q, g)
    requires EffectFrom(parse, log, m, base, g) == Effect(parse, log, base, map[])
    ensures StartsRight(parse, log, base, |log|, d)
  {
    EffectAbsorbs(parse, log, m, base, q, |log|, g);
    SameFromIff(parse, log, base, |log|, d, Effect(parse, log, base, map[]));
  }

  /**
   During catch-up a restarted machine shows what is not committed there yet: two puts were flushed, and only the first
   has been replayed.
   */
  lemma CatchUpShowsLater()
    ensures var parse: Parser := b => Some(Write("put", b, [], "", 0));
            var log := [Entry(1, 1, [1]), Entry(2, 1, [2])];
            var flushed := RunLog(parse, BLANK, log).data;
            && RunLog(parse, Machine(flushed, 0, map[]), log[..1]).data == map[[1] := [], [2] := []]
            && RunLog(parse, BLANK, log[..1]).data == map[[1] := []]
  {
    var parse: Parser := b => Some(Write("put", b, [], "", 0));
    var log := [Entry(1, 1, [1]), Entry(2, 1, [2])];
    assert log[..1] == [Entry(1, 1, [1])] && log[..1][..0] == [];
    assert RunLog(parse, BLANK, log[..1]) == Machine(map[[1] := []], 1, map[]);
    assert RunLog(parse, BLANK, log) == Machine(map[[1] := [], [2] := []], 2, map[]);
  }

  /**
   The snapshot of the first entry let the log go without it, nothing was flushed, and a restart does not read the
   snapshot: the machine begins behind it, on nothing.
   */
  lemma UnflushedSnapshotIsLost()
    ensures var parse: Parser := b => Some(Write("put", b, [], "", 0));
            var log := [Entry(1, 1, [1]), Entry(2, 1, [2])];
            && RunLog(parse, BLANK, log[1..]).data == map[[2] := []]
            && RunLog(parse, BLANK, log).data == map[[1] := [], [2] := []]
  {
    var parse: Parser := b => Some(Write("put", b, [], "", 0));
    var log := [Entry(1, 1, [1]), Entry(2, 1, [2])];
    assert log[..1] == [Entry(1, 1, [1])] && log[..1][..0] == [];
    assert log[1..] == [Entry(2, 1, [2])] && log[1..][..0] == [];
    assert RunLog(parse, BLANK, log[..1]) == Machine(map[[1] := []], 1, map[]);
    assert RunLog(parse, BLANK, log) == Machine(map[[1] := [], [2] := []], 2, map[]);
  }

  lemma LogsInPlace(run: seq<Cluster>, i: nat, n: NodeId)
    requires IsRun(run) && i < |run| && n in run[i].nodes
    ensures Indexed(run[i].nodes[n].log)
  {
    RunIsGood(run, i);
    NodeFacts(run[i], n);
    LogsIndexed(run[i].core, n);
  }

  /**
   Replicas that have committed up to the same index hold the same map, at whatever moments they are looked
   at, if what they were started on does not show any more, and they lost their tables at the same entry or
   nowhere where it does harm.
   */
  lemma ReplicasAgree(parse: Parser, decode: Decoder, enc: Encoder, run: seq<Cluster>, i: nat, j: nat,
                      a: NodeId, b: NodeId, da: Data, db: Data)
    requires IsFaithfulRun(enc, run) && i < |run| && j < |run| && a in run[i].nodes && b in run[j].nodes
    requires Restores(parse, decode, enc)
    requires var x := run[i].nodes[a]; StartGone(parse, CommittedLog(x), x.base, x.out, da)
    requires var y := run[j].nodes[b]; StartGone(parse, CommittedLog(y), y.base, y.out, db)
    requires run[i].nodes[a].commitIndex == run[j].nodes[b].commitIndex
    requires var x, y := run[i].nodes[a], run[j].nodes[b];
             || LostAt(x.base, x.out) == LostAt(y.base, y.out)
             || (&& Harmless(parse, CommittedLog(x), LostAt(x.base, x.out), |CommittedLog(x)|)
                 && Harmless(parse, CommittedLog(y), LostAt(y.base, y.out), |CommittedLog(y)|))
    ensures TakeIn(parse, decode, Machine(da, 0, map[]), run[i].nodes[a].out).data
         == TakeIn(parse, decode, Machine(db, 0, map[]), run[j].nodes[b].out).data
  {
    var x, y := run[i].nodes[a], run[j].nodes[b];
    ReplicaHolds(parse, decode, enc, run, i, a, da);
    ReplicaHolds(parse, decode, enc, run, j, b, db);
    CommittedLogsAgree(run, i, j, a, b, x.commitIndex);
    if LostAt(x.base, x.out) != LostAt(y.base, y.out) {
      HarmlessKeeps(parse, CommittedLog(x), LostAt(x.base, x.out), |CommittedLog(x)|);
      HarmlessKeeps(parse, CommittedLog(y), LostAt(y.base, y.out), |CommittedLog(y)|);
    }
  }

  // ---------------------------------------------------------------- whose write was it

  lemma TermLogIsCoherent(run: seq<Cluster>, i: nat, t: nat)
    requires IsRun(run) && i < |run| && t in run[i].core.termLog
    ensures Coherent(run[i].core.termLog, run[i].core.termLog[t])
  {
    RunIsGood(run, i);
  }

  /**
   The entry a node hands out for the index of a proposed write is that very write exactly if it carries the term
   the write was proposed in. This is the comparison NotifyPending leaves out.
   */
  lemma AnswerIsOwnIff(run: seq<Cluster>, i: nat, j: nat, a: NodeId, n: NodeId, k: nat, p: nat)
    requires IsRun(run) && i < |run| && j < |run| && a in run[i].nodes && n in run[j].nodes
    requires k < |run[i].nodes[a].log| && p < |run[j].nodes[n].out| && run[j].nodes[n].out[p].Command?
    requires run[j].nodes[n].out[p].entry.index == run[i].nodes[a].log[k].index
    ensures var mine, e := run[i].nodes[a].log[k], run[j].nodes[n].out[p].entry; e == mine <==> e.term == mine.term
  {
    var mine, e := run[i].nodes[a].log[k], run[j].nodes[n].out[p].entry;
    LaterGrows(run, i, j);
    var l := Later(run, i, j);
    LogsInPlace(run, i, a);
    LogIsCoherent(run, i, run[l].core, a);
    HandedOutIsCertified(run, j, run[l].core, n, p);
    var t: nat, m: nat :| CertifiedBy(run[l].core, e, t, m);
    TermLogIsCoherent(run, l, t);
    if e.term == mine.term {
      CoherentLogsMatch(run[l].core.termLog, run[i].nodes[a].log, run[l].core.termLog[t], k);
    }
  }
}
