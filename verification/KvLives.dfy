/**
 The stores of a cluster over their whole lives. A node that restarts finds in its tables what its map was at
 some moment of the session before, loses its table of sequence numbers, and takes in its stream from its
 snapshot on. A snapshot is written of the map the node's own machine has by then. Two things are shown of any
 such life: the snapshots are the ones the cluster expects, and a replica that has caught up with all it had
 committed before holds the right map again.
 */
module KvLives {

  import opened Bytes
  import opened RaftTypes
  import opened RaftSpec
  import opened RaftCluster
  import opened RaftInvariant
  import opened RaftElectionSteps
  import opened RaftSafety
  import opened RaftStream
  import opened RaftReplicas
  import opened StateMachine
  import opened Replay
  import opened KvReplicas

  /** The bytes a store writes as the snapshot of a map. */
  type Writer = Data -> Bytes

  ghost function EncoderOf(parse: Parser, write: Writer): Encoder {
    (l: seq<Entry>) => write(Effect(parse, l, |l|, map[]))
  }

  /** For each node the map its machine was started on. */
  type Starts = map<NodeId, Data>

  /** The machine of a node, started on d, after the first p messages of the node's stream. */
  function MachineAt(parse: Parser, decode: Decoder, x: NodeState, d: Data, p: nat): Machine
    requires p <= |x.out|
  {
    TakeIn(parse, decode, Machine(d, 0, map[]), x.out[..p])
  }

  /**
   After the first p messages losing the table has done no harm, and what the machine was started on does not show. The
   map is then the effect of exactly the entries up to there (MachineSoundIff).
   */
  ghost predicate SoundAt(parse: Parser, x: NodeState, d: Data, p: nat)
    requires p <= |x.out|
  {
    var log, k := CommittedLog(x), Position(x.base, x.out[..p]);
    && k <= |log| && Harmless(parse, log, LostAt(x.base, x.out[..p]), k)
    && StartGone(parse, log, x.base, x.out[..p], d)
  }

  /** The state machine snapshots its map right after it applied the entry, and that map is sound. */
  ghost predicate SnapshotAfter(parse: Parser, decode: Decoder, write: Writer, x: NodeState, d: Data, e: Entry,
                                data: Bytes, p: nat)
  {
    && p < |x.out| && x.out[p] == Command(e) && data == write(MachineAt(parse, decode, x, d, p + 1).data)
    && SoundAt(parse, x, d, p + 1)
  }

  ghost predicate Own(parse: Parser, decode: Decoder, write: Writer, s: Cluster, starts: Starts, step: Step)
    requires Enabled(s, step)
  {
    match step
    case Compact(n, e, data) =>
      n in starts && exists p: nat :: SnapshotAfter(parse, decode, write, s.nodes[n], starts[n], e, data, p)
    case SendChunk(n, _, offset, data, done) => ChunkOf(s.nodes[n].disk.snapshot, offset, data, done)
    case _ => true
  }

  /**
   The tables have the map after the first p messages, which are not behind the node's snapshot; the table of sequence
   numbers had not been lost where it does harm.
   */
  ghost predicate FlushedAt(parse: Parser, decode: Decoder, x: NodeState, d: Data, d': Data, p: nat) {
    && p <= |x.out| && x.snapIndex <= Position(x.base, x.out[..p]) && d' == MachineAt(parse, decode, x, d, p).data
    && Harmless(parse, CommittedLog(x), LostAt(x.base, x.out[..p]), |CommittedLog(x)|)
  }

  ghost predicate CameBack(parse: Parser, decode: Decoder, x: NodeState, starts: Starts, n: NodeId, starts': Starts) {
    && n in starts && starts'.Keys == starts.Keys && (forall m :: m in starts && m != n ==> starts'[m] == starts[m])
    && exists p: nat :: FlushedAt(parse, decode, x, starts[n], starts'[n], p)
  }

  ghost predicate Carries(parse: Parser, decode: Decoder, s: Cluster, starts: Starts, step: Step, starts': Starts)
    requires Enabled(s, step)
  {
    if step.CrashAndRestart? then CameBack(parse, decode, s.nodes[step.n], starts, step.n, starts')
    else starts' == starts
  }

  ghost predicate Lives(parse: Parser, decode: Decoder, write: Writer, s: Cluster, starts: Starts, s': Cluster,
                        starts': Starts, step: Step)
  {
    && Enabled(s, step) && s' == Apply(s, step)
    && Own(parse, decode, write, s, starts, step) && Carries(parse, decode, s, starts, step, starts')
  }

  ghost predicate LivesOn(parse: Parser, decode: Decoder, write: Writer, s: Cluster, starts: Starts, s': Cluster,
                          starts': Starts)
  {
    exists step :: Lives(parse, decode, write, s, starts, s', starts', step)
  }

  ghost predicate LivesAt(parse: Parser, decode: Decoder, write: Writer, run: seq<Cluster>, starts: seq<Starts>,
                          i: nat) {
    i + 1 < |run| == |starts| && LivesOn(parse, decode, write, run[i], starts[i], run[i + 1], starts[i + 1])
  }

  ghost predicate Born(s: Cluster, starts: Starts) {
    starts.Keys == s.nodes.Keys && forall n :: n in starts ==> starts[n] == map[]
  }

  /** A run, and what the machines of its nodes were started on in each state. */
  ghost predicate IsLife(parse: Parser, decode: Decoder, write: Writer, run: seq<Cluster>, starts: seq<Starts>) {
    && |starts| == |run| > 0 && Init(run[0]) && Born(run[0], starts[0])
    && forall i: nat :: i + 1 < |run| ==> LivesAt(parse, decode, write, run, starts, i)
  }

  lemma LifeIsRun(parse: Parser, decode: Decoder, write: Writer, run: seq<Cluster>, starts: seq<Starts>)
    requires IsLife(parse, decode, write, run, starts)
    ensures IsRun(run)
  {
    forall i: nat | i + 1 < |run| ensures StepAt(run, i) {
      assert LivesAt(parse, decode, write, run, starts, i);
    }
  }

  // ---------------------------------------------------------------- the snapshots are the ones expected

  /**
   Where losing the table did no harm, a machine holds the effect of its entries exactly if its start does not
   show.
   */
  lemma HoldsEffectIff(parse: Parser, log: seq<Entry>, base: nat, out: seq<ApplyMsg>, k: nat, d: Data, s: Machine)
    requires k == Position(base, out) <= |log| && base <= LostAt(base, out)
    requires Holds(parse, log, LostAt(base, out), k, Renewed(base, out), d, s)
    requires Harmless(parse, log, LostAt(base, out), k)
    ensures s.data == Effect(parse, log, k, map[]) <==> StartGone(parse, log, base, out, d)
  {
    HarmlessKeeps(parse, log, LostAt(base, out), k);
    if !Renewed(base, out) {
      LostWhereStarted(base, out);
      SameFromIff(parse, log, base, k, d, Effect(parse, log, base, map[]));
    }
  }

  /** The same of a node's machine anywhere in its stream. */
  lemma MachineSoundIff(parse: Parser, decode: Decoder, enc: Encoder, run: seq<Cluster>, i: nat, n: NodeId, d: Data,
                        p: nat)
    requires IsFaithfulRun(enc, run) && i < |run| && n in run[i].nodes && Restores(parse, decode, enc)
    requires var x := run[i].nodes[n];
             && p <= |x.out| && Position(x.base, x.out[..p]) <= |CommittedLog(x)|
             && Harmless(parse, CommittedLog(x), LostAt(x.base, x.out[..p]), Position(x.base, x.out[..p]))
    ensures var x := run[i].nodes[n];
            MachineAt(parse, decode, x, d, p).data
              == Effect(parse, CommittedLog(x), Position(x.base, x.out[..p]), map[])
            <==> SoundAt(parse, x, d, p)
  {
    var x := run[i].nodes[n];
    StreamIsGapless(enc, run, i, n);
    TracksNode(parse, decode, enc, run, i, n, d, p);
    GaplessPrefix(x.base, x.out, p);
    LostLeadsOn(x.base, x.out[..p]);
    HoldsEffectIff(parse, CommittedLog(x), x.base, x.out[..p], Position(x.base, x.out[..p]), d,
                   MachineAt(parse, decode, x, d, p));
  }

  /** The snapshot of a sound machine is the one of the entries it stands for. */
  lemma OwnSnapshot(parse: Parser, decode: Decoder, write: Writer, run: seq<Cluster>, i: nat, n: NodeId, d: Data,
                    e: Entry, data: Bytes, p: nat)
    requires var enc := EncoderOf(parse, write); IsFaithfulRun(enc, run) && Restores(parse, decode, enc)
    requires i < |run| && n in run[i].nodes && SnapshotAfter(parse, decode, write, run[i].nodes[n], d, e, data, p)
    ensures e.index <= |run[i].nodes[n].log| && data == EncoderOf(parse, write)(run[i].nodes[n].log[..e.index])
  {
    var x := run[i].nodes[n];
    MachineSoundIff(parse, decode, EncoderOf(parse, write), run, i, n, d, p + 1);
    assert x.out[..p + 1][p] == x.out[p];
    var k := Position(x.base, x.out[..p + 1]);
    assert k == e.index && k <= |CommittedLog(x)|;
    EffectOfPrefix(parse, CommittedLog(x), k, k);
    assert CommittedLog(x)[..k] == x.log[..k];
  }

  lemma OwnIsFaithful(parse: Parser, decode: Decoder, write: Writer, run: seq<Cluster>, i: nat, starts: Starts,
                      step: Step)
    requires var enc := EncoderOf(parse, write); IsFaithfulRun(enc, run) && Restores(parse, decode, enc)
    requires i < |run| && Enabled(run[i], step) && Own(parse, decode, write, run[i], starts, step)
    ensures Faithful(EncoderOf(parse, write), run[i], step)
  {
    if step.Compact? {
      var p: nat :| SnapshotAfter(parse, decode, write, run[i].nodes[step.n], starts[step.n], step.entry, step.data, p);
      OwnSnapshot(parse, decode, write, run, i, step.n, starts[step.n], step.entry, step.data, p);
    }
  }

  /** One more step of a life, behind a run that has been faithful so far. */
  lemma NextIsFaithful(parse: Parser, decode: Decoder, write: Writer, run: seq<Cluster>, i: nat, starts: Starts,
                       s': Cluster, starts': Starts)
    requires var enc := EncoderOf(parse, write); IsFaithfulRun(enc, run) && Restores(parse, decode, enc)
    requires i < |run| && LivesOn(parse, decode, write, run[i], starts, s', starts')
    ensures FaithfulNext(EncoderOf(parse, write), run[i], s')
  {
    var step :| Lives(parse, decode, write, run[i], starts, s', starts', step);
    OwnIsFaithful(parse, decode, write, run, i, starts, step);
  }

  ghost predicate FaithfulUpTo(enc: Encoder, run: seq<Cluster>, k: nat) {
    forall i: nat :: i + 1 < k ==> FaithfulAt(enc, run, i)
  }

  lemma FaithfulPrefix(enc: Encoder, run: seq<Cluster>, k: nat)
    requires 0 < k <= |run| && IsRun(run) && FaithfulUpTo(enc, run, k)
    ensures IsFaithfulRun(enc, run[..k])
  {
    forall i: nat | i + 1 < k ensures StepAt(run[..k], i) && FaithfulAt(enc, run[..k], i) {
      assert StepAt(run, i) && FaithfulAt(enc, run, i);
    }
  }

  lemma LifeGoesOn(parse: Parser, decode: Decoder, write: Writer, run: seq<Cluster>, starts: seq<Starts>, i: nat)
    requires IsLife(parse, decode, write, run, starts) && i + 1 < |run|
    ensures LivesOn(parse, decode, write, run[i], starts[i], run[i + 1], starts[i + 1])
  {
    assert LivesAt(parse, decode, write, run, starts, i);
  }

  lemma FaithfulOneMore(parse: Parser, decode: Decoder, write: Writer, run: seq<Cluster>, i: nat, starts: Starts,
                        starts': Starts)
    requires Restores(parse, decode, EncoderOf(parse, write))
    requires IsRun(run) && i + 1 < |run| && FaithfulUpTo(EncoderOf(parse, write), run, i + 1)
    requires LivesOn(parse, decode, write, run[i], starts, run[i + 1], starts')
    ensures FaithfulAt(EncoderOf(parse, write), run, i)
  {
    FaithfulPrefix(EncoderOf(parse, write), run, i + 1);
    NextIsFaithful(parse, decode, write, run[..i + 1], i, starts, run[i + 1], starts');
  }

  /** Whatever part of the run is faithful, so is the next step. */
  ghost predicate StaysFaithful(enc: Encoder, run: seq<Cluster>) {
    forall i: nat :: i + 1 < |run| && FaithfulUpTo(enc, run, i + 1) ==> FaithfulAt(enc, run, i)
  }

  lemma {:induction false} FaithfulSoFar(enc: Encoder, run: seq<Cluster>, k: nat)
    requires StaysFaithful(enc, run) && 0 < k <= |run|
    ensures FaithfulUpTo(enc, run, k)
  {
    if k > 1 {
      FaithfulSoFar(enc, run, k - 1);
    }
  }

  lemma LifeStaysFaithful(parse: Parser, decode: Decoder, write: Writer, run: seq<Cluster>, starts: seq<Starts>)
    requires IsLife(parse, decode, write, run, starts) && Restores(parse, decode, EncoderOf(parse, write))
    ensures IsRun(run) && StaysFaithful(EncoderOf(parse, write), run)
  {
    LifeIsRun(parse, decode, write, run, starts);
    forall i: nat | i + 1 < |run| && FaithfulUpTo(EncoderOf(parse, write), run, i + 1)
      ensures FaithfulAt(EncoderOf(parse, write), run, i)
    {
      LifeGoesOn(parse, decode, write, run, starts, i);
      FaithfulOneMore(parse, decode, write, run, i, starts[i], starts[i + 1]);
    }
  }

  /**
   The loop is closed: if every node snapshots the map its own machine has, and does so only where that map is
   sound, every snapshot of the run is the one of the entries it stands for.
   */
  lemma LifeIsFaithful(parse: Parser, decode: Decoder, write: Writer, run: seq<Cluster>, starts: seq<Starts>)
    requires IsLife(parse, decode, write, run, starts) && Restores(parse, decode, EncoderOf(parse, write))
    ensures IsFaithfulRun(EncoderOf(parse, write), run)
  {
    LifeStaysFaithful(parse, decode, write, run, starts);
    FaithfulSoFar(EncoderOf(parse, write), run, |run|);
  }

  // ---------------------------------------------------------------- which keys the entries touch, log by log

  lemma TouchedInPrefix(parse: Parser, log: seq<Entry>, k: nat, m: nat, n: nat, key: Key)
    requires n <= k <= |log|
    ensures TouchedFrom(parse, log[..k], m, n, key) <==> TouchedFrom(parse, log, m, n, key)
  {
    forall i: nat ensures TouchedAt(parse, log[..k], m, n, key, i) <==> TouchedAt(parse, log, m, n, key, i) {
      if i < n {
        CountsInPrefix(parse, log, k, m, i);
      }
    }
  }

  /** What an earlier log touches, a longer one touches too. */
  lemma TouchedInLonger(parse: Parser, a: seq<Entry>, b: seq<Entry>, m: nat, key: Key)
    requires |a| <= |b| && a == b[..|a|] && TouchedFrom(parse, a, m, |a|, key)
    ensures TouchedFrom(parse, b, m, |b|, key)
  {
    TouchedInPrefix(parse, b, |a|, m, |a|, key);
    TouchedLater(parse, b, m, |a|, |b|, key);
  }

  /** A key that log a touches from m on, and log b does not touch before c, is touched by a from c on. */
  lemma TouchedBeyond(parse: Parser, a: seq<Entry>, b: seq<Entry>, m: nat, c: nat, key: Key)
    requires m <= c <= |b| && TouchedFrom(parse, a, m, |a|, key) && !TouchedFrom(parse, b, m, c, key)
    requires |a| <= c ==> a == b[..|a|]
    requires |a| > c ==> a[..c] == b[..c]
    ensures TouchedFrom(parse, a, c, |a|, key)
  {
    var k: nat :| TouchedAt(parse, a, m, |a|, key, k);
    if k >= c {
      TouchedMore(parse, a, m, c, |a|, key, k);
    } else {
      var l := if |a| <= c then |a| else c;
      assert TouchedAt(parse, a, m, l, key, k);
      TouchedInPrefix(parse, a, l, m, l, key);
      TouchedInPrefix(parse, b, l, m, l, key);
      assert a[..l] == b[..l];
      TouchedLater(parse, b, m, l, c, key);
    }
  }

  // ---------------------------------------------------------------- one key over a restart

  /** What the tables, flushed at q, say of a key that the entries from b on leave alone. */
  lemma FlushedKey(parse: Parser, log: seq<Entry>, base: nat, m: nat, b: nat, q: nat, renewed: bool, d: Data, d': Data,
                   key: Key)
    requires base <= m <= b <= q <= |log| && (renewed || m == base) && Harmless(parse, log, m, |log|)
    requires d' == EffectFrom(parse, log, m, q, Ground(parse, log, m, renewed, d))
    requires !TouchedFrom(parse, log, b, |log|, key)
    ensures || Lookup(d', key) == Lookup(Effect(parse, log, b, map[]), key)
            || (&& !TouchedFrom(parse, log, base, b, key) && Lookup(d', key) == Lookup(d, key)
                && Lookup(Effect(parse, log, b, map[]), key) == Lookup(Effect(parse, log, base, map[]), key))
  {
    if TouchedFrom(parse, log, b, q, key) {
      TouchedLater(parse, log, b, q, |log|, key);
    }
    QuietBetween(parse, log, m, b, q, Ground(parse, log, m, renewed, d), key);
    HarmlessKeeps(parse, log, m, b);
    if !renewed {
      StartedKey(parse, log, base, b, d, key);
    }
  }

  /** Of a machine started on d, the same at b itself. */
  lemma StartedKey(parse: Parser, log: seq<Entry>, base: nat, b: nat, d: Data, key: Key)
    requires base <= b <= |log| && EffectForgetting(parse, log, base, b) == Effect(parse, log, b, map[])
    ensures var at := EffectFrom(parse, log, base, b, d);
            if TouchedFrom(parse, log, base, b, key) then Lookup(at, key) == Lookup(Effect(parse, log, b, map[]), key)
            else && Lookup(at, key) == Lookup(d, key)
                 && Lookup(Effect(parse, log, b, map[]), key) == Lookup(Effect(parse, log, base, map[]), key)
  {
    var right := Effect(parse, log, base, map[]);
    if TouchedFrom(parse, log, base, b, key) {
      TouchedForgets(parse, log, base, b, d, right, key);
    } else {
      UntouchedStays(parse, log, base, b, d, key);
      UntouchedStays(parse, log, base, b, right, key);
    }
  }

  // ---------------------------------------------------------------- the starts of a life

  /** By moment j node n had committed an entry from base on that touches the key. */
  ghost predicate TouchedBy(parse: Parser, run: seq<Cluster>, n: NodeId, base: nat, key: Key, j: nat) {
    && j < |run| && n in run[j].nodes
    && TouchedFrom(parse, CommittedLog(run[j].nodes[n]), base, |CommittedLog(run[j].nodes[n])|, key)
  }

  /** The start has for the key what the first entries of the log say, or the node has since had it touched. */
  ghost predicate KeyOk(parse: Parser, run: seq<Cluster>, i: nat, n: NodeId, d: Data, key: Key)
    requires i < |run| && n in run[i].nodes
  {
    var x := run[i].nodes[n];
    && x.base <= |CommittedLog(x)|
    && (|| Lookup(d, key) == Lookup(Effect(parse, CommittedLog(x), x.base, map[]), key)
        || exists j: nat :: j <= i && TouchedBy(parse, run, n, x.base, key, j))
  }

  ghost predicate StartOk(parse: Parser, run: seq<Cluster>, i: nat, n: NodeId, d: Data)
    requires i < |run| && n in run[i].nodes
  {
    forall key :: KeyOk(parse, run, i, n, d, key)
  }

  /** The first k entries of a node amount to the same at any two moments at which it has committed them. */
  lemma SameEffect(parse: Parser, run: seq<Cluster>, i: nat, j: nat, n: NodeId, k: nat)
    requires IsRun(run) && i < |run| && j < |run| && n in run[i].nodes && n in run[j].nodes
    requires k <= |CommittedLog(run[i].nodes[n])| == run[i].nodes[n].commitIndex
    requires k <= |CommittedLog(run[j].nodes[n])| == run[j].nodes[n].commitIndex
    ensures CommittedLog(run[i].nodes[n])[..k] == CommittedLog(run[j].nodes[n])[..k]
    ensures Effect(parse, CommittedLog(run[i].nodes[n]), k, map[])
         == Effect(parse, CommittedLog(run[j].nodes[n]), k, map[])
  {
    CommittedLogsAgree(run, i, j, n, n, k);
    var a, b := CommittedLog(run[i].nodes[n]), CommittedLog(run[j].nodes[n]);
    assert a[..k] == run[i].nodes[n].log[..k] && b[..k] == run[j].nodes[n].log[..k];
    EffectOfPrefix(parse, a, k, k);
    EffectOfPrefix(parse, b, k, k);
  }

  lemma CommittedFits(enc: Encoder, run: seq<Cluster>, i: nat, n: NodeId)
    requires IsFaithfulRun(enc, run) && i < |run| && n in run[i].nodes
    ensures var x := run[i].nodes[n]; x.base <= x.snapIndex <= |CommittedLog(x)| == x.commitIndex
  {
    StreamIsGapless(enc, run, i, n);
  }

  /** A step that does not restart the node leaves its start as right as it was. */
  lemma StartStays(parse: Parser, enc: Encoder, run: seq<Cluster>, i: nat, n: NodeId, d: Data)
    requires IsFaithfulRun(enc, run) && i + 1 < |run| && n in run[i].nodes && n in run[i + 1].nodes
    requires run[i + 1].nodes[n].base == run[i].nodes[n].base && StartOk(parse, run, i, n, d)
    ensures StartOk(parse, run, i + 1, n, d)
  {
    CommittedFits(enc, run, i, n);
    CommittedFits(enc, run, i + 1, n);
    SameEffect(parse, run, i, i + 1, n, run[i].nodes[n].base);
    var i' := i + 1;
    forall key ensures KeyOk(parse, run, i', n, d, key) {
      assert KeyOk(parse, run, i, n, d, key);
    }
  }

  lemma {:induction false} LostUpTo(base: nat, out: seq<ApplyMsg>, index: nat)
    requires base <= index && SnapshotsUpTo(index, out)
    ensures LostAt(base, out) <= index
  {
    if out != [] {
      LostUpTo(base, out[..|out| - 1], index);
    }
  }

  /** What flushed tables are, in terms of the log. */
  lemma FlushedIs(parse: Parser, decode: Decoder, enc: Encoder, run: seq<Cluster>, i: nat, n: NodeId, d: Data, d': Data,
                  p: nat)
    requires IsFaithfulRun(enc, run) && i < |run| && n in run[i].nodes && Restores(parse, decode, enc)
    requires FlushedAt(parse, decode, run[i].nodes[n], d, d', p)
    ensures var x := run[i].nodes[n];
            var log, m, q := CommittedLog(x), LostAt(x.base, x.out[..p]), Position(x.base, x.out[..p]);
            var renewed := Renewed(x.base, x.out[..p]);
            && x.base <= m <= x.snapIndex <= q <= |log| && (renewed || m == x.base)
            && d' == EffectFrom(parse, log, m, q, Ground(parse, log, m, renewed, d))
  {
    var x := run[i].nodes[n];
    StreamIsGapless(enc, run, i, n);
    TracksNode(parse, decode, enc, run, i, n, d, p);
    GaplessPrefix(x.base, x.out, p);
    LostLeadsOn(x.base, x.out[..p]);
    LostUpTo(x.base, x.out[..p], x.snapIndex);
    if !Renewed(x.base, x.out[..p]) {
      LostWhereStarted(x.base, x.out[..p]);
    }
  }

  /** A key touched from the old start on, but not up to the snapshot, has been touched from the snapshot on. */
  lemma TouchedSince(parse: Parser, enc: Encoder, run: seq<Cluster>, i: nat, n: NodeId, key: Key, j: nat)
    requires IsFaithfulRun(enc, run) && i < |run| && n in run[i].nodes
    requires var x := run[i].nodes[n];
             TouchedBy(parse, run, n, x.base, key, j) && !TouchedFrom(parse, CommittedLog(x), x.base, x.snapIndex, key)
    ensures TouchedBy(parse, run, n, run[i].nodes[n].snapIndex, key, j)
  {
    var x := run[i].nodes[n];
    CommittedFits(enc, run, i, n);
    CommittedFits(enc, run, j, n);
    var a := CommittedLog(run[j].nodes[n]);
    var k := if |a| <= x.snapIndex then |a| else x.snapIndex;
    SameEffect(parse, run, i, j, n, k);
    assert a[..|a|] == a;
    TouchedBeyond(parse, a, CommittedLog(x), x.base, x.snapIndex, key);
  }

  lemma KeyComesBack(parse: Parser, decode: Decoder, enc: Encoder, run: seq<Cluster>, i: nat, n: NodeId, d: Data,
                     d': Data, p: nat, key: Key)
    requires IsFaithfulRun(enc, run) && i < |run| && n in run[i].nodes && Restores(parse, decode, enc)
    requires FlushedAt(parse, decode, run[i].nodes[n], d, d', p) && KeyOk(parse, run, i, n, d, key)
    ensures var x := run[i].nodes[n];
            && x.snapIndex <= |CommittedLog(x)|
            && (|| Lookup(d', key) == Lookup(Effect(parse, CommittedLog(x), x.snapIndex, map[]), key)
                || exists j: nat :: j <= i && TouchedBy(parse, run, n, x.snapIndex, key, j))
  {
    var x := run[i].nodes[n];
    var log := CommittedLog(x);
    FlushedIs(parse, decode, enc, run, i, n, d, d', p);
    if TouchedFrom(parse, log, x.snapIndex, |log|, key) {
      assert TouchedBy(parse, run, n, x.snapIndex, key, i);
    } else {
      FlushedKey(parse, log, x.base, LostAt(x.base, x.out[..p]), x.snapIndex, Position(x.base, x.out[..p]),
                 Renewed(x.base, x.out[..p]), d, d', key);
      if Lookup(d', key) != Lookup(Effect(parse, log, x.snapIndex, map[]), key) {
        var j: nat :| j <= i && TouchedBy(parse, run, n, x.base, key, j);
        TouchedSince(parse, enc, run, i, n, key, j);
      }
    }
  }

  /** A node that comes back on its flushed tables starts right for all it has ever committed. */
  lemma StartComesBack(parse: Parser, decode: Decoder, enc: Encoder, run: seq<Cluster>, i: nat, n: NodeId, d: Data,
                       d': Data, p: nat)
    requires IsFaithfulRun(enc, run) && i + 1 < |run| && n in run[i].nodes && n in run[i + 1].nodes
    requires Restores(parse, decode, enc)
    requires FlushedAt(parse, decode, run[i].nodes[n], d, d', p) && StartOk(parse, run, i, n, d)
    requires run[i + 1].nodes[n].base == run[i].nodes[n].snapIndex
    ensures StartOk(parse, run, i + 1, n, d')
  {
    CommittedFits(enc, run, i, n);
    CommittedFits(enc, run, i + 1, n);
    SameEffect(parse, run, i, i + 1, n, run[i].nodes[n].snapIndex);
    var i' := i + 1;
    forall key ensures KeyOk(parse, run, i', n, d', key) {
      assert KeyOk(parse, run, i, n, d, key);
      KeyComesBack(parse, decode, enc, run, i, n, d, d', p, key);
    }
  }

  // ---------------------------------------------------------------- over the steps of a life

  lemma FollowerBase(x: NodeState, req: AppendRequest, snap: SnapshotRequest, covered: seq<Entry>)
    ensures HandleAppendEntries(x, req).0.base == x.base && HandleInstallSnapshot(x, snap, covered).0.base == x.base
  {
  }

  lemma LeaderBase(cfg: Config, x: NodeState, peer: NodeId, req: AppendRequest, resp: AppendResponse, data: Bytes)
    ensures HandleAppendResponse(cfg, x, peer, req, resp).base == x.base && Propose(cfg, x, data).base == x.base
  {
  }

  /** Only a restart moves where a node's stream begins. */
  lemma BaseStays(s: Cluster, step: Step)
    requires Enabled(s, step) && !step.CrashAndRestart?
    ensures RaftCluster.Perform(s, step).x.base == s.nodes[RaftCluster.Perform(s, step).n].base
  {
    var none := SnapshotRequest(0, NO_NODE, 0, 0, 0, [], false);
    var noCall, noReply := AppendRequest(0, NO_NODE, 0, 0, [], 0), AppendResponse(0, false, 0, 0, 0);
    match step
    case ClientPropose(n, data) => LeaderBase(Cfg(s, n), s.nodes[n], n, noCall, noReply, data);
    case DeliverAppendReply(m) => LeaderBase(Cfg(s, m.dst), s.nodes[m.dst], m.src, m.append, m.appendResp, []);
    case DeliverAppendCall(m) => FollowerBase(s.nodes[m.dst], m.append, none, []);
    case DeliverSnapshotCall(m) => FollowerBase(s.nodes[m.dst], noCall, m.snap, Covered(s, m.snap));
    case _ =>
  }

  lemma RestartBase(s: Cluster, n: NodeId)
    requires Good(s) && Enabled(s, CrashAndRestart(n))
    ensures RaftCluster.Perform(s, CrashAndRestart(n)).x.base == s.nodes[n].snapIndex
  {
    NodeFacts(s, n);
  }

  /** The nodes stay, and the stream of a restarted one begins at its snapshot. */
  ghost predicate BaseMoves(s: Cluster, step: Step, s': Cluster) {
    && s'.nodes.Keys == s.nodes.Keys
    && forall n :: n in s.nodes ==>
         s'.nodes[n].base == if step == CrashAndRestart(n) then s.nodes[n].snapIndex else s.nodes[n].base
  }

  lemma PutMoves(s: Cluster, step: Step, n: NodeId, x: NodeState, s': Cluster)
    requires n in s.nodes && s'.nodes == s.nodes[n := x]
    requires if step.CrashAndRestart? then step.n == n && x.base == s.nodes[n].snapIndex else x.base == s.nodes[n].base
    ensures BaseMoves(s, step, s')
  {
  }

  lemma MovedBase(s: Cluster, step: Step)
    requires Good(s) && Enabled(s, step)
    ensures var o := RaftCluster.Perform(s, step);
            if step.CrashAndRestart? then step.n == o.n && o.x.base == s.nodes[o.n].snapIndex
            else o.x.base == s.nodes[o.n].base
  {
    if step.CrashAndRestart? {
      RestartBase(s, step.n);
    } else {
      BaseStays(s, step);
    }
  }

  lemma StepMoves(s: Cluster, step: Step)
    requires Good(s) && Enabled(s, step)
    ensures BaseMoves(s, step, Apply(s, step))
  {
    var o := RaftCluster.Perform(s, step);
    MovedBase(s, step);
    PutMoves(s, step, o.n, o.x, Apply(s, step));
  }

  ghost predicate StartsOk(parse: Parser, run: seq<Cluster>, starts: Starts, i: nat) {
    i < |run| && starts.Keys == run[i].nodes.Keys && forall n :: n in starts ==> StartOk(parse, run, i, n, starts[n])
  }

  lemma BornOk(parse: Parser, run: seq<Cluster>, starts: Starts)
    requires run != [] && Init(run[0]) && Born(run[0], starts)
    ensures StartsOk(parse, run, starts, 0)
  {
    forall n | n in starts ensures StartOk(parse, run, 0, n, starts[n]) {
      assert run[0].nodes[n] == Restart(BLANK_DISK, []);
      forall key ensures KeyOk(parse, run, 0, n, map[], key) {
      }
    }
  }

  lemma NodeLivesOn(parse: Parser, decode: Decoder, enc: Encoder, run: seq<Cluster>, i: nat, starts: Starts,
                    starts': Starts, step: Step, n: NodeId)
    requires IsFaithfulRun(enc, run) && i + 1 < |run| && Restores(parse, decode, enc) && StartsOk(parse, run, starts, i)
    requires Enabled(run[i], step) && BaseMoves(run[i], step, run[i + 1])
    requires Carries(parse, decode, run[i], starts, step, starts') && n in starts
    ensures n in starts' && StartOk(parse, run, i + 1, n, starts'[n])
  {
    assert StartOk(parse, run, i, n, starts[n]);
    if step == CrashAndRestart(n) {
      var p: nat :| FlushedAt(parse, decode, run[i].nodes[n], starts[n], starts'[n], p);
      StartComesBack(parse, decode, enc, run, i, n, starts[n], starts'[n], p);
    } else {
      StartStays(parse, enc, run, i, n, starts[n]);
    }
  }

  lemma StartsLiveOn(parse: Parser, decode: Decoder, enc: Encoder, run: seq<Cluster>, i: nat, starts: Starts,
                     starts': Starts, step: Step)
    requires IsFaithfulRun(enc, run) && i + 1 < |run| && Restores(parse, decode, enc) && StartsOk(parse, run, starts, i)
    requires Enabled(run[i], step) && BaseMoves(run[i], step, run[i + 1])
    requires Carries(parse, decode, run[i], starts, step, starts')
    ensures StartsOk(parse, run, starts', i + 1)
  {
    forall n | n in starts ensures n in starts' && StartOk(parse, run, i + 1, n, starts'[n]) {
      NodeLivesOn(parse, decode, enc, run, i, starts, starts', step, n);
    }
    assert starts'.Keys == starts.Keys;
  }

  lemma LivedOn(parse: Parser, decode: Decoder, write: Writer, run: seq<Cluster>, i: nat, starts: Starts,
                starts': Starts)
    requires var enc := EncoderOf(parse, write); IsFaithfulRun(enc, run) && Restores(parse, decode, enc)
    requires i + 1 < |run| && StartsOk(parse, run, starts, i)
    requires LivesOn(parse, decode, write, run[i], starts, run[i + 1], starts')
    ensures StartsOk(parse, run, starts', i + 1)
  {
    var step :| Lives(parse, decode, write, run[i], starts, run[i + 1], starts', step);
    RunIsGood(run, i);
    StepMoves(run[i], step);
    StartsLiveOn(parse, decode, EncoderOf(parse, write), run, i, starts, starts', step);
  }

  lemma LifeLivedOn(parse: Parser, decode: Decoder, write: Writer, run: seq<Cluster>, starts: seq<Starts>, i: nat)
    requires IsLife(parse, decode, write, run, starts) && Restores(parse, decode, EncoderOf(parse, write))
    requires IsFaithfulRun(EncoderOf(parse, write), run) && i + 1 < |run| && StartsOk(parse, run, starts[i], i)
    ensures StartsOk(parse, run, starts[i + 1], i + 1)
  {
    LifeGoesOn(parse, decode, write, run, starts, i);
    LivedOn(parse, decode, write, run, i, starts[i], starts[i + 1]);
  }

  lemma {:induction false} LifeStartsOk(parse: Parser, decode: Decoder, write: Writer, run: seq<Cluster>,
                                        starts: seq<Starts>, i: nat)
    requires IsLife(parse, decode, write, run, starts) && Restores(parse, decode, EncoderOf(parse, write)) && i < |run|
    requires IsFaithfulRun(EncoderOf(parse, write), run)
    ensures StartsOk(parse, run, starts[i], i)
  {
    if i == 0 {
      BornOk(parse, run, starts[0]);
    } else {
      LifeStartsOk(parse, decode, write, run, starts, i - 1);
      LifeLivedOn(parse, decode, write, run, starts, i - 1);
    }
  }

  // ---------------------------------------------------------------- theorems

  /** The node has committed at least as much as at any moment before, in this session or an earlier one. */
  ghost predicate CaughtUp(run: seq<Cluster>, i: nat, n: NodeId)
    requires i < |run| && n in run[i].nodes
  {
    forall j: nat :: j <= i && n in run[j].nodes ==> run[j].nodes[n].commitIndex <= run[i].nodes[n].commitIndex
  }

  lemma CaughtUpKey(parse: Parser, enc: Encoder, run: seq<Cluster>, i: nat, n: NodeId, d: Data, key: Key)
    requires IsFaithfulRun(enc, run) && i < |run| && n in run[i].nodes && CaughtUp(run, i, n)
    requires KeyOk(parse, run, i, n, d, key)
    ensures var x := run[i].nodes[n];
            && x.base <= |CommittedLog(x)|
            && (|| TouchedFrom(parse, CommittedLog(x), x.base, |CommittedLog(x)|, key)
                || Lookup(d, key) == Lookup(Effect(parse, CommittedLog(x), x.base, map[]), key))
  {
    var x := run[i].nodes[n];
    if j: nat :| j <= i && TouchedBy(parse, run, n, x.base, key, j) {
      var a := CommittedLog(run[j].nodes[n]);
      CommittedFits(enc, run, i, n);
      CommittedFits(enc, run, j, n);
      SameEffect(parse, run, i, j, n, |a|);
      assert a[..|a|] == a;
      TouchedInLonger(parse, a, CommittedLog(x), x.base, key);
    }
  }

  lemma CaughtUpStartsRight(parse: Parser, enc: Encoder, run: seq<Cluster>, i: nat, n: NodeId, d: Data)
    requires IsFaithfulRun(enc, run) && i < |run| && n in run[i].nodes && CaughtUp(run, i, n)
    requires StartOk(parse, run, i, n, d)
    ensures var x := run[i].nodes[n]; StartsRight(parse, CommittedLog(x), x.base, |CommittedLog(x)|, d)
  {
    var x := run[i].nodes[n];
    var log := CommittedLog(x);
    CommittedFits(enc, run, i, n);
    forall key ensures TouchedFrom(parse, log, x.base, |log|, key)
                    || Lookup(d, key) == Lookup(Effect(parse, log, x.base, map[]), key)
    {
      assert KeyOk(parse, run, i, n, d, key);
      CaughtUpKey(parse, enc, run, i, n, d, key);
    }
  }

  /**
   Over a whole life, with any number of crashes, at whatever moments the tables were flushed: a replica that
   has caught up with all its node ever committed holds what the committed entries amount to when the table
   was lost where it was, and the effect of exactly these entries if that does no harm.
   */
  lemma LifeHolds(parse: Parser, decode: Decoder, write: Writer, run: seq<Cluster>, starts: seq<Starts>, i: nat,
                  n: NodeId)
    requires IsLife(parse, decode, write, run, starts) && Restores(parse, decode, EncoderOf(parse, write))
    requires i < |run| && n in run[i].nodes && CaughtUp(run, i, n)
    ensures n in starts[i]
    ensures var x := run[i].nodes[n];
            var s := TakeIn(parse, decode, Machine(starts[i][n], 0, map[]), x.out);
            var log, lost := CommittedLog(x), LostAt(x.base, x.out);
            && lost <= |log| == x.commitIndex && s.data == EffectForgetting(parse, log, lost, |log|)
            && (Harmless(parse, log, lost, |log|) ==> s.data == Effect(parse, log, |log|, map[]))
  {
    var enc := EncoderOf(parse, write);
    LifeIsFaithful(parse, decode, write, run, starts);
    LifeStartsOk(parse, decode, write, run, starts, i);
    var x, d := run[i].nodes[n], starts[i][n];
    assert StartOk(parse, run, i, n, d);
    CaughtUpStartsRight(parse, enc, run, i, n, d);
    StandsAtCommit(enc, run, i, n);
    ReplicaHolds(parse, decode, enc, run, i, n, d);
    if Harmless(parse, CommittedLog(x), LostAt(x.base, x.out), |CommittedLog(x)|) {
      HarmlessKeeps(parse, CommittedLog(x), LostAt(x.base, x.out), |CommittedLog(x)|);
    }
  }

  // ---------------------------------------------------------------- snapshotting switched off

  /** No node has a snapshot, and none is on its way. */
  ghost predicate Bare(s: Cluster) {
    && (forall n :: n in s.nodes ==> BareNode(s.nodes[n]))
    && (forall m :: m in s.net ==> !m.SnapshotCall?)
  }

  ghost predicate BareNode(x: NodeState) {
    x.snapIndex == 0 && x.base == 0 && forall p :: 0 <= p < |x.out| ==> x.out[p].Command?
  }

  lemma FlowsBare(x: NodeState, x': NodeState)
    requires BareNode(x) && Flows(x, x')
    ensures BareNode(x')
  {
  }

  lemma MovedBare(s: Cluster, step: Step)
    requires Good(s) && Bare(s) && Enabled(s, step) && !step.Compact?
    ensures BareNode(RaftCluster.Perform(s, step).x)
  {
    var o := RaftCluster.Perform(s, step);
    if step.CrashAndRestart? {
      NodeFacts(s, step.n);
    } else {
      CommitInLog(s, o.n);
      if step.DeliverAppendCall? {
        AppendCallFlows(s, step.m);
      } else {
        PlainFlows(s, step);
      }
      FlowsBare(s.nodes[o.n], o.x);
    }
  }

  lemma SendsNone(s: Cluster, step: Step, m: Message)
    requires Bare(s) && Enabled(s, step) && m in RaftCluster.Perform(s, step).sent
    ensures !m.SnapshotCall?
  {
    if m.SnapshotCall? {
      ChunksSent(s, step, m);
    }
  }

  lemma PutBare(s: Cluster, s': Cluster, n: NodeId, x: NodeState, sent: set<Message>)
    requires Bare(s) && s'.nodes == s.nodes[n := x] && s'.net == s.net + sent
    requires BareNode(x) && forall m :: m in sent ==> !m.SnapshotCall?
    ensures Bare(s')
  {
  }

  lemma StepBare(s: Cluster, step: Step)
    requires Good(s) && Bare(s) && Enabled(s, step) && !step.Compact?
    ensures Bare(Apply(s, step))
  {
    var o := RaftCluster.Perform(s, step);
    MovedBare(s, step);
    forall m | m in o.sent ensures !m.SnapshotCall? {
      SendsNone(s, step, m);
    }
    PutBare(s, Apply(s, step), o.n, o.x, o.sent);
  }

  /** The tables have the map after some messages, whichever. */
  ghost predicate Kept(parse: Parser, decode: Decoder, x: NodeState, d: Data, d': Data, p: nat) {
    p <= |x.out| && d' == MachineAt(parse, decode, x, d, p).data
  }

  ghost predicate CarriesAny(parse: Parser, decode: Decoder, s: Cluster, starts: Starts, step: Step, starts': Starts)
    requires Enabled(s, step)
  {
    if step.CrashAndRestart? then
      && step.n in starts && starts'.Keys == starts.Keys
      && (forall m :: m in starts && m != step.n ==> starts'[m] == starts[m])
      && exists p: nat :: Kept(parse, decode, s.nodes[step.n], starts[step.n], starts'[step.n], p)
    else starts' == starts
  }

  ghost predicate LivesOnBare(parse: Parser, decode: Decoder, s: Cluster, starts: Starts, s': Cluster,
                              starts': Starts) {
    exists step :: Enabled(s, step) && !step.Compact? && s' == Apply(s, step)
                && CarriesAny(parse, decode, s, starts, step, starts')
  }

  ghost predicate LivesBareAt(parse: Parser, decode: Decoder, run: seq<Cluster>, starts: seq<Starts>, i: nat) {
    i + 1 < |run| == |starts| && LivesOnBare(parse, decode, run[i], starts[i], run[i + 1], starts[i + 1])
  }

  /** A run in which nothing is ever compacted, its nodes coming back on whatever their tables had at any moment. */
  ghost predicate IsBareLife(parse: Parser, decode: Decoder, run: seq<Cluster>, starts: seq<Starts>) {
    && |starts| == |run| > 0 && Init(run[0]) && Born(run[0], starts[0])
    && forall i: nat :: i + 1 < |run| ==> LivesBareAt(parse, decode, run, starts, i)
  }

  lemma BareLifeIsRun(parse: Parser, decode: Decoder, run: seq<Cluster>, starts: seq<Starts>)
    requires IsBareLife(parse, decode, run, starts)
    ensures IsRun(run)
  {
    forall i: nat | i + 1 < |run| ensures StepAt(run, i) {
      assert LivesBareAt(parse, decode, run, starts, i);
    }
  }

  lemma NextBare(parse: Parser, decode: Decoder, s: Cluster, starts: Starts, s': Cluster, starts': Starts)
    requires Good(s) && Bare(s) && LivesOnBare(parse, decode, s, starts, s', starts')
    ensures Bare(s')
  {
    var step :| && Enabled(s, step) && !step.Compact? && s' == Apply(s, step)
                && CarriesAny(parse, decode, s, starts, step, starts');
    StepBare(s, step);
  }

  lemma {:induction false} RunBare(parse: Parser, decode: Decoder, run: seq<Cluster>, starts: seq<Starts>, i: nat)
    requires IsBareLife(parse, decode, run, starts) && IsRun(run) && i < |run|
    ensures Bare(run[i])
  {
    if i > 0 {
      var h := i - 1;
      RunBare(parse, decode, run, starts, h);
      RunIsGood(run, h);
      assert LivesBareAt(parse, decode, run, starts, h);
      NextBare(parse, decode, run[h], starts[h], run[h + 1], starts[h + 1]);
    }
  }

  lemma KeptIsFlushed(parse: Parser, decode: Decoder, x: NodeState, d: Data, d': Data, p: nat)
    requires BareNode(x) && Kept(parse, decode, x, d, d', p)
    ensures FlushedAt(parse, decode, x, d, d', p)
  {
    NotRenewed(0, x.out[..p]);
    HarmlessFromStart(parse, CommittedLog(x));
  }

  lemma BareCarries(parse: Parser, decode: Decoder, s: Cluster, starts: Starts, step: Step, starts': Starts)
    requires Bare(s) && Enabled(s, step) && CarriesAny(parse, decode, s, starts, step, starts')
    ensures Carries(parse, decode, s, starts, step, starts')
  {
    if step.CrashAndRestart? {
      var n := step.n;
      var p: nat :| Kept(parse, decode, s.nodes[n], starts[n], starts'[n], p);
      KeptIsFlushed(parse, decode, s.nodes[n], starts[n], starts'[n], p);
    }
  }

  lemma BareOwn(parse: Parser, decode: Decoder, write: Writer, s: Cluster, starts: Starts, step: Step)
    requires Bare(s) && Enabled(s, step) && !step.Compact?
    ensures Own(parse, decode, write, s, starts, step)
  {
  }

  lemma BareLivesOn(parse: Parser, decode: Decoder, write: Writer, s: Cluster, starts: Starts, s': Cluster,
                    starts': Starts)
    requires Bare(s) && LivesOnBare(parse, decode, s, starts, s', starts')
    ensures LivesOn(parse, decode, write, s, starts, s', starts')
  {
    var step :| && Enabled(s, step) && !step.Compact? && s' == Apply(s, step)
                && CarriesAny(parse, decode, s, starts, step, starts');
    BareCarries(parse, decode, s, starts, step, starts');
    BareOwn(parse, decode, write, s, starts, step);
    assert Lives(parse, decode, write, s, starts, s', starts', step);
  }

  lemma BareLifeIsLife(parse: Parser, decode: Decoder, write: Writer, run: seq<Cluster>, starts: seq<Starts>)
    requires IsBareLife(parse, decode, run, starts)
    ensures IsLife(parse, decode, write, run, starts)
  {
    BareLifeIsRun(parse, decode, run, starts);
    forall i: nat | i + 1 < |run| ensures LivesAt(parse, decode, write, run, starts, i) {
      RunBare(parse, decode, run, starts, i);
      assert LivesBareAt(parse, decode, run, starts, i);
      BareLivesOn(parse, decode, write, run[i], starts[i], run[i + 1], starts[i + 1]);
    }
  }

  /** Every key of the map was put or deleted by an entry the node had committed by then, in whichever session. */
  ghost predicate Written(parse: Parser, run: seq<Cluster>, i: nat, n: NodeId, d: Data) {
    forall key :: key in d ==> exists j: nat :: j <= i && TouchedBy(parse, run, n, 0, key, j)
  }

  lemma WrittenIff(parse: Parser, enc: Encoder, run: seq<Cluster>, i: nat, n: NodeId, d: Data)
    requires IsFaithfulRun(enc, run) && i < |run| && n in run[i].nodes && run[i].nodes[n].base == 0
    ensures Written(parse, run, i, n, d) <==> StartOk(parse, run, i, n, d)
  {
    if Written(parse, run, i, n, d) {
      forall key ensures KeyOk(parse, run, i, n, d, key) {
        assert key in d ==> exists j: nat :: j <= i && TouchedBy(parse, run, n, 0, key, j);
      }
    }
    if StartOk(parse, run, i, n, d) {
      forall key | key in d ensures exists j: nat :: j <= i && TouchedBy(parse, run, n, 0, key, j) {
        assert KeyOk(parse, run, i, n, d, key);
      }
    }
  }

  /**
   Without snapshots catching up makes up for whatever the tables lost or kept too long, by flushes that never
   came or files that were removed or not: it is enough that every key they have was written once.
   */
  lemma CatchingUpHeals(parse: Parser, decode: Decoder, enc: Encoder, run: seq<Cluster>, i: nat, n: NodeId, d: Data)
    requires IsFaithfulRun(enc, run) && i < |run| && n in run[i].nodes && Restores(parse, decode, enc)
    requires BareNode(run[i].nodes[n]) && CaughtUp(run, i, n) && Written(parse, run, i, n, d)
    ensures var log := CommittedLog(run[i].nodes[n]);
            && AllTouched(parse, log, d)
            && TakeIn(parse, decode, Machine(d, 0, map[]), run[i].nodes[n].out).data == Effect(parse, log, |log|, map[])
  {
    WrittenIff(parse, enc, run, i, n, d);
    CaughtUpStartsRight(parse, enc, run, i, n, d);
    StartsRightIff(parse, CommittedLog(run[i].nodes[n]), d);
    UnsnapshottedHoldsCommittedIff(parse, decode, enc, run, i, n, d);
  }

  /** What a bare life starts on has only keys that were written. */
  lemma BareStartIsWritten(parse: Parser, decode: Decoder, write: Writer, run: seq<Cluster>, starts: seq<Starts>,
                           i: nat, n: NodeId)
    requires IsBareLife(parse, decode, run, starts) && Restores(parse, decode, EncoderOf(parse, write))
    requires i < |run| && n in run[i].nodes
    ensures IsFaithfulRun(EncoderOf(parse, write), run) && BareNode(run[i].nodes[n])
    ensures n in starts[i] && Written(parse, run, i, n, starts[i][n])
  {
    BareLifeIsRun(parse, decode, run, starts);
    BareLifeIsLife(parse, decode, write, run, starts);
    LifeIsFaithful(parse, decode, write, run, starts);
    RunBare(parse, decode, run, starts, i);
    LifeStartsOk(parse, decode, write, run, starts, i);
    WrittenIff(parse, EncoderOf(parse, write), run, i, n, starts[i][n]);
  }

  /**
   With snapshotting off, as the program is wired, nothing is asked of a life: crashes come at any moment and
   tables were flushed at any moment. A replica holds the effect of exactly the committed entries if and only
   if these touch every key its tables came back with, and they do as soon as it has caught up with what it
   had committed before.
   */
  lemma BareLifeHoldsIff(parse: Parser, decode: Decoder, write: Writer, run: seq<Cluster>, starts: seq<Starts>, i: nat,
                         n: NodeId)
    requires IsBareLife(parse, decode, run, starts) && Restores(parse, decode, EncoderOf(parse, write))
    requires i < |run| && n in run[i].nodes
    ensures n in starts[i]
    ensures var log := CommittedLog(run[i].nodes[n]);
            TakeIn(parse, decode, Machine(starts[i][n], 0, map[]), run[i].nodes[n].out).data
              == Effect(parse, log, |log|, map[])
            <==> AllTouched(parse, log, starts[i][n])
    ensures CaughtUp(run, i, n) ==> AllTouched(parse, CommittedLog(run[i].nodes[n]), starts[i][n])
  {
    var enc := EncoderOf(parse, write);
    BareStartIsWritten(parse, decode, write, run, starts, i, n);
    UnsnapshottedHoldsCommittedIff(parse, decode, enc, run, i, n, starts[i][n]);
    if CaughtUp(run, i, n) {
      CatchingUpHeals(parse, decode, enc, run, i, n, starts[i][n]);
    }
  }
}
