/**
 The layers put together: the storage engine as the store of a replica. Its snapshots are the ones the cluster carries
 about, and an engine that takes in what its node hands out holds the effect of the committed entries.
 */
module StoreReplicas {

  import opened Wrappers
  import opened Bytes
  import opened Encoding
  import opened Memtable
  import opened Merge
  import opened SnapshotCodec
  import opened Listing
  import opened LsmEngine
  import opened RaftTypes
  import opened RaftCluster
  import opened RaftStream
  import opened RaftReplicas
  import opened RaftTransfer
  import opened StateMachine
  import opened Replay
  import opened KvReplicas
  import opened KvLives

  /** Keys and values short enough for the file formats. */
  ghost predicate ShortWrites(parse: Parser) {
    forall b: Bytes :: parse(b).Some? ==> Fits(|parse(b).value.key|) && Fits(|parse(b).value.value|)
  }

  lemma PerformShort(d: Data, w: Write)
    requires ShortData(d) && Fits(|w.key|) && Fits(|w.value|)
    ensures ShortData(StateMachine.Perform(d, w))
  {
  }

  lemma {:induction false} EffectShort(parse: Parser, log: seq<Entry>, n: nat)
    requires ShortWrites(parse) && n <= |log|
    ensures ShortData(Effect(parse, log, n, map[]))
  {
    if n > 0 {
      EffectShort(parse, log, n - 1);
      if Counts(parse, log, n - 1) {
        PerformShort(Effect(parse, log, n - 1, map[]), parse(log[n - 1].data).value);
      }
    }
  }

  // ---------------------------------------------------------------- the engine's snapshots

  /** What an engine writes as the snapshot of its data. */
  ghost function StoreWriter(): Writer {
    (d: Data) => SnapshotOf(d)
  }

  /** What an engine writes as the snapshot of the state after some entries. */
  ghost function StoreEncoder(parse: Parser): Encoder { EncoderOf(parse, StoreWriter()) }

  /** What an engine makes of the bytes of a snapshot. */
  ghost function StoreDecoder(): Decoder {
    (b: Bytes) => match ReadAll(b) case None => None case Some(es) => Some(LiveMap(View(es)))
  }

  lemma Decodes(b: Bytes)
    ensures StoreDecoder()(b) == if ReadAll(b).Some? then Some(LiveMap(View(ReadAll(b).value))) else None
  {
  }

  /** A snapshot an engine took after some entries is read back as what those entries amount to. */
  lemma StoreRestores(parse: Parser)
    requires ShortWrites(parse)
    ensures Restores(parse, StoreDecoder(), StoreEncoder(parse))
  {
    forall l: seq<Entry> ensures StoreDecoder()(StoreEncoder(parse)(l)) == Some(Effect(parse, l, |l|, map[])) {
      EffectShort(parse, l, |l|);
      SnapshotDecodes(Effect(parse, l, |l|, map[]));
    }
  }

  /**
   The snapshot of any engine that holds the effect of the entries, whatever its tables, is the one the
   cluster expects.
   */
  method TakeSnapshot(e: Engine, parse: Parser, ghost log: seq<Entry>) returns (data: Bytes)
    requires e.Valid() && e.Data() == Effect(parse, log, |log|, map[])
    ensures data == StoreEncoder(parse)(log)
  {
    data := e.Snapshot();
  }

  /** One engine's data crosses the chunked transfer into another engine, however many chunks it takes. */
  method Ship(source: Engine, target: Engine, head: SnapshotRequest, x: NodeState, covered: seq<Entry>)
    requires source.Valid() && target.Valid() && SmallData(source.Data())
    requires x.currentTerm <= head.term && x.snapIndex < head.lastIncludedIndex
    modifies target
    ensures target.Valid() && target.Data() == old(source.Data())
  {
    ghost var d := source.Data();
    var data := source.Snapshot();
    var chunks := SendSnapshot(head, data);
    var y := Feed(x, chunks, covered);
    CleanTransferInstalls(x, head, data, chunks, covered);
    var arrived := y.out[|y.out| - 1].data;
    assert arrived == data && LiveMap(View(ReadAll(data).value)) == d;
    var ok := target.LoadSnapshot(arrived);
  }

  // ---------------------------------------------------------------- the engine takes in a stream

  /** All there is, is in the tables. */
  ghost predicate InTables(h: Shape) { h.pending == [] && h.active == [] }

  /** Only the active memtable has changed. */
  ghost predicate OnTop(h: Shape, h': Shape) { h'.tables == h.tables && h'.pending == h.pending }

  method PerformOn(e: Engine, w: Write)
    requires e.Valid() && !e.closed && Fits(|w.key|) && Fits(|w.value|)
    modifies e.active
    ensures e.Valid() && e.Data() == StateMachine.Perform(old(e.Data()), w)
    ensures e.Tables() == old(e.Tables()) && e.Pending() == old(e.Pending())
  {
    if w.op == "put" {
      var ok := e.Put(w.key, w.value);
    } else if w.op == "delete" {
      var ok := e.Delete(w.key);
    }
  }

  method ApplyOn(e: Engine, parse: Parser, lastApplied: nat, lastSeq: map<string, nat>, entry: Entry)
      returns (lastApplied': nat, lastSeq': map<string, nat>)
    requires e.Valid() && !e.closed && ShortWrites(parse)
    modifies e.active
    ensures e.Valid() && e.Tables() == old(e.Tables()) && e.Pending() == old(e.Pending())
    ensures Machine(e.Data(), lastApplied', lastSeq')
         == ApplyEntry(parse, Machine(old(e.Data()), lastApplied, lastSeq), entry)
  {
    lastApplied', lastSeq' := lastApplied, lastSeq;
    if entry.index <= lastApplied {
      return;
    }
    lastApplied' := entry.index;
    var cmd := parse(entry.data);
    if cmd.Some? && !IsRetry(lastSeq, cmd.value) {
      PerformOn(e, cmd.value);
      lastSeq' := Remember(lastSeq, cmd.value);
    }
  }

  method InstallOn(e: Engine, lastApplied: nat, lastSeq: map<string, nat>, data: Bytes, index: nat)
      returns (lastApplied': nat, lastSeq': map<string, nat>)
    requires e.Valid() && Loadable(data)
    modifies e
    ensures e.Valid() && e.closed == old(e.closed) && (e.active == old(e.active) || fresh(e.active))
    ensures (old(e.Tidy()) ==> e.Tidy())
    ensures InTables(e.Layout()) || OnTop(old(e.Layout()), e.Layout())
    ensures Machine(e.Data(), lastApplied', lastSeq')
         == ApplySnapshot(StoreDecoder(), Machine(old(e.Data()), lastApplied, lastSeq), data, index)
  {
    lastApplied', lastSeq' := lastApplied, lastSeq;
    if index <= lastApplied {
      return;
    }
    Decodes(data);
    var ok := e.LoadSnapshot(data);
    if ok {
      lastApplied', lastSeq' := index, map[];
    }
  }

  method DispatchOn(e: Engine, parse: Parser, lastApplied: nat, lastSeq: map<string, nat>, m: ApplyMsg)
      returns (lastApplied': nat, lastSeq': map<string, nat>)
    requires e.Valid() && !e.closed && ShortWrites(parse) && (m.Snapshot? ==> Loadable(m.data))
    modifies e, e.active
    ensures e.Valid() && !e.closed && (e.active == old(e.active) || fresh(e.active)) && (old(e.Tidy()) ==> e.Tidy())
    ensures InTables(e.Layout()) || OnTop(old(e.Layout()), e.Layout())
    ensures Machine(e.Data(), lastApplied', lastSeq')
         == Dispatch(parse, StoreDecoder(), Machine(old(e.Data()), lastApplied, lastSeq), m)
  {
    match m
    case Command(entry) => lastApplied', lastSeq' := ApplyOn(e, parse, lastApplied, lastSeq, entry);
    case Snapshot(data, index, _) => lastApplied', lastSeq' := InstallOn(e, lastApplied, lastSeq, data, index);
  }

  /** An engine that takes in a stream goes through the states of the machine of that stream. */
  method TakeInOn(e: Engine, parse: Parser, out: seq<ApplyMsg>) returns (lastApplied: nat, lastSeq: map<string, nat>)
    requires e.Valid() && !e.closed && ShortWrites(parse)
    requires forall p :: 0 <= p < |out| && out[p].Snapshot? ==> Loadable(out[p].data)
    modifies e, e.active
    ensures e.Valid()
    ensures Machine(e.Data(), lastApplied, lastSeq)
         == TakeIn(parse, StoreDecoder(), Machine(old(e.Data()), 0, map[]), out)
  {
    ghost var start := Machine(e.Data(), 0, map[]);
    lastApplied, lastSeq := 0, map[];
    var i := 0;
    while i < |out|
      invariant 0 <= i <= |out| && e.Valid() && !e.closed && (e.active == old(e.active) || fresh(e.active))
      invariant Machine(e.Data(), lastApplied, lastSeq) == TakeIn(parse, StoreDecoder(), start, out[..i])
    {
      KvReplicas.TakesNext(parse, StoreDecoder(), start, out, i);
      lastApplied, lastSeq := DispatchOn(e, parse, lastApplied, lastSeq, out[i]);
      i := i + 1;
    }
    assert out[..i] == out;
  }

  // ---------------------------------------------------------------- flushes at any moment, and a crash

  /** What happens to an engine: a message of the stream, or one of its background workers doing a part of its work. */
  datatype Act = Take(msg: ApplyMsg) | RotateNow | FlushNow | CompactNow

  function Messages(acts: seq<Act>): seq<ApplyMsg> {
    if acts == [] then [] else
    var rest := Messages(acts[..|acts| - 1]);
    var last := acts[|acts| - 1];
    if last.Take? then rest + [last.msg] else rest
  }

  /** The map after the first p of the messages. */
  ghost function DataAfter(parse: Parser, start: Data, out: seq<ApplyMsg>, p: nat): Data
    requires p <= |out|
  {
    TakeIn(parse, StoreDecoder(), Machine(start, 0, map[]), out[..p]).data
  }

  /** The tables have the map after p messages, and with the memtable to be flushed they have that after r messages. */
  ghost predicate Lags(parse: Parser, start: Data, out: seq<ApplyMsg>, h: Shape, p: nat, r: nat) {
    && p <= |out| && r <= |out| && |h.pending| <= 1 && TableData(h) == DataAfter(parse, start, out, p)
    && (h.pending != [] ==> DataOf(h.tables, h.pending, []) == DataAfter(parse, start, out, r))
  }

  lemma LagsOn(parse: Parser, start: Data, out: seq<ApplyMsg>, msg: ApplyMsg, h: Shape, h': Shape, p: nat, r: nat)
    requires Lags(parse, start, out, h, p, r) && h'.tables == h.tables && h'.pending == h.pending
    ensures Lags(parse, start, out + [msg], h', p, r)
  {
    assert (out + [msg])[..p] == out[..p] && (out + [msg])[..r] == out[..r];
  }

  /** Nothing is left in memory: the tables are up to date. */
  lemma LagsNowhere(parse: Parser, start: Data, out: seq<ApplyMsg>, h: Shape)
    requires h.pending == [] && h.active == []
    requires ShapeData(h) == TakeIn(parse, StoreDecoder(), Machine(start, 0, map[]), out).data
    ensures Lags(parse, start, out, h, |out|, |out|)
  {
    assert out[..|out|] == out && h == Shape(h.tables, [], []);
  }

  /** A store of that shape has taken in the messages, and its tables lag behind. */
  ghost predicate Follows(parse: Parser, start: Data, out: seq<ApplyMsg>, h: Shape, lastApplied: nat,
                          lastSeq: map<string, nat>, p: nat, r: nat) {
    && Lags(parse, start, out, h, p, r)
    && Machine(ShapeData(h), lastApplied, lastSeq) == TakeIn(parse, StoreDecoder(), Machine(start, 0, map[]), out)
  }

  lemma RotatedFollows(parse: Parser, start: Data, out: seq<ApplyMsg>, h: Shape, lastApplied: nat,
                       lastSeq: map<string, nat>, p: nat, r: nat)
    requires Follows(parse, start, out, h, lastApplied, lastSeq, p, r) && h.pending == []
    ensures Follows(parse, start, out, Rotated(h), lastApplied, lastSeq, p, |out|)
  {
    RotatedData(h);
    assert out[..|out|] == out;
  }

  lemma FlushedFollows(parse: Parser, start: Data, out: seq<ApplyMsg>, h: Shape, lastApplied: nat,
                       lastSeq: map<string, nat>, p: nat, r: nat)
    requires Follows(parse, start, out, h, lastApplied, lastSeq, p, r)
    ensures Follows(parse, start, out, Flushed(h), lastApplied, lastSeq, if Flushed(h) == h then p else r, r)
  {
    FlushedData(h);
  }

  lemma CompactedFollows(parse: Parser, start: Data, out: seq<ApplyMsg>, h: Shape, h': Shape, lastApplied: nat,
                         lastSeq: map<string, nat>, p: nat, r: nat)
    requires Follows(parse, start, out, h, lastApplied, lastSeq, p, r) && Recast(h, h')
    ensures Follows(parse, start, out, h', lastApplied, lastSeq, p, r)
  {
  }

  /** One more message, taken into the active memtable or, with everything else, straight into the tables. */
  lemma TookFollows(parse: Parser, start: Data, out: seq<ApplyMsg>, msg: ApplyMsg, h: Shape, h': Shape, s: Machine,
                    s': Machine, p: nat, r: nat) returns (p': nat, r': nat)
    requires Follows(parse, start, out, h, s.lastApplied, s.lastSeq, p, r) && s.data == ShapeData(h)
    requires s' == Dispatch(parse, StoreDecoder(), s, msg) && s'.data == ShapeData(h')
    requires InTables(h') || OnTop(h, h')
    ensures Follows(parse, start, out + [msg], h', s'.lastApplied, s'.lastSeq, p', r')
  {
    TakesLast(parse, StoreDecoder(), Machine(start, 0, map[]), out, msg);
    if OnTop(h, h') {
      p', r' := p, r;
      LagsOn(parse, start, out, msg, h, h', p, r);
    } else {
      p', r' := |out| + 1, |out| + 1;
      LagsNowhere(parse, start, out + [msg], h');
    }
  }

  /** An engine that has taken in the messages. */
  ghost predicate Keeps(e: Engine, parse: Parser, start: Data, out: seq<ApplyMsg>, lastApplied: nat,
                        lastSeq: map<string, nat>, p: nat, r: nat)
    reads e, e.active, e.immutable
  {
    && e.Valid() && e.Tidy() && !e.closed
    && Follows(parse, start, out, e.Layout(), lastApplied, lastSeq, p, r)
  }

  method TakeNow(e: Engine, parse: Parser, msg: ApplyMsg, lastApplied: nat, lastSeq: map<string, nat>,
                 ghost start: Data, ghost out: seq<ApplyMsg>, ghost p: nat, ghost r: nat)
      returns (lastApplied': nat, lastSeq': map<string, nat>, ghost p': nat, ghost r': nat)
    requires Keeps(e, parse, start, out, lastApplied, lastSeq, p, r)
    requires ShortWrites(parse) && (msg.Snapshot? ==> Loadable(msg.data))
    modifies e, e.active
    ensures Keeps(e, parse, start, out + [msg], lastApplied', lastSeq', p', r')
    ensures e.active == old(e.active) || fresh(e.active)
  {
    ghost var h, s := e.Layout(), Machine(e.Data(), lastApplied, lastSeq);
    lastApplied', lastSeq' := DispatchOn(e, parse, lastApplied, lastSeq, msg);
    ghost var s' := Machine(e.Data(), lastApplied', lastSeq');
    p', r' := TookFollows(parse, start, out, msg, h, e.Layout(), s, s', p, r);
  }

  method RotateStep(e: Engine, parse: Parser, ghost start: Data, ghost out: seq<ApplyMsg>, lastApplied: nat,
                    lastSeq: map<string, nat>, ghost p: nat, ghost r: nat) returns (ghost r': nat)
    requires Keeps(e, parse, start, out, lastApplied, lastSeq, p, r)
    modifies e
    ensures Keeps(e, parse, start, out, lastApplied, lastSeq, p, r') && (e.active == old(e.active) || fresh(e.active))
  {
    r' := r;
    if e.immutable == null {
      ghost var h := e.Layout();
      e.Rotate();
      RotatedFollows(parse, start, out, h, lastApplied, lastSeq, p, r);
      r' := |out|;
    }
  }

  method FlushStep(e: Engine, parse: Parser, ghost start: Data, ghost out: seq<ApplyMsg>, lastApplied: nat,
                   lastSeq: map<string, nat>, ghost p: nat, ghost r: nat) returns (ghost p': nat)
    requires Keeps(e, parse, start, out, lastApplied, lastSeq, p, r)
    modifies e
    ensures Keeps(e, parse, start, out, lastApplied, lastSeq, p', r) && e.active == old(e.active)
  {
    p' := p;
    if e.immutable != null && |SSTable.DataBlock(e.immutable.entries)| < Power(8) {
      FlushedFollows(parse, start, out, e.Layout(), lastApplied, lastSeq, p, r);
      p' := if Flushed(e.Layout()) == e.Layout() then p else r;
      e.DoFlush();
    }
  }

  method CompactStep(e: Engine, parse: Parser, ghost start: Data, ghost out: seq<ApplyMsg>, lastApplied: nat,
                     lastSeq: map<string, nat>, ghost p: nat, ghost r: nat)
    requires Keeps(e, parse, start, out, lastApplied, lastSeq, p, r)
    modifies e
    ensures Keeps(e, parse, start, out, lastApplied, lastSeq, p, r) && e.active == old(e.active)
  {
    if |SSTable.DataBlock(Compacted(e.files, e.sstables))| < Power(8) {
      ghost var h := e.Layout();
      e.DoCompaction();
      CompactedFollows(parse, start, out, h, e.Layout(), lastApplied, lastSeq, p, r);
    }
  }

  method WorkNow(e: Engine, parse: Parser, act: Act, ghost start: Data, ghost out: seq<ApplyMsg>, lastApplied: nat,
                 lastSeq: map<string, nat>, ghost p: nat, ghost r: nat) returns (ghost p': nat, ghost r': nat)
    requires Keeps(e, parse, start, out, lastApplied, lastSeq, p, r) && !act.Take?
    modifies e
    ensures Keeps(e, parse, start, out, lastApplied, lastSeq, p', r') && (e.active == old(e.active) || fresh(e.active))
  {
    p', r' := p, r;
    match act
    case RotateNow => r' := RotateStep(e, parse, start, out, lastApplied, lastSeq, p, r);
    case FlushNow => p' := FlushStep(e, parse, start, out, lastApplied, lastSeq, p, r);
    case CompactNow => CompactStep(e, parse, start, out, lastApplied, lastSeq, p, r);
  }

  /** A snapshot among the messages fits into one table file. */
  ghost predicate ActLoadable(act: Act) { act.Take? && act.msg.Snapshot? ==> Loadable(act.msg.data) }

  ghost predicate AllLoadable(acts: seq<Act>) { forall i :: 0 <= i < |acts| ==> ActLoadable(acts[i]) }

  method ActOn(e: Engine, parse: Parser, act: Act, lastApplied: nat, lastSeq: map<string, nat>, ghost start: Data,
               ghost acts: seq<Act>, ghost p: nat, ghost r: nat)
      returns (lastApplied': nat, lastSeq': map<string, nat>, ghost p': nat, ghost r': nat)
    requires Keeps(e, parse, start, Messages(acts), lastApplied, lastSeq, p, r)
    requires ShortWrites(parse) && ActLoadable(act)
    modifies e, e.active
    ensures Keeps(e, parse, start, Messages(acts + [act]), lastApplied', lastSeq', p', r')
    ensures e.active == old(e.active) || fresh(e.active)
  {
    assert (acts + [act])[..|acts|] == acts;
    if act.Take? {
      lastApplied', lastSeq', p', r' := TakeNow(e, parse, act.msg, lastApplied, lastSeq, start, Messages(acts), p, r);
    } else {
      lastApplied', lastSeq' := lastApplied, lastSeq;
      p', r' := WorkNow(e, parse, act, start, Messages(acts), lastApplied, lastSeq, p, r);
    }
  }

  lemma OneMoreAct(acts: seq<Act>, i: nat)
    requires i < |acts|
    ensures acts[..i + 1] == acts[..i] + [acts[i]] && (i + 1 == |acts| ==> acts[..i + 1] == acts)
  {
  }

  lemma KeepsFromStart(e: Engine, parse: Parser, none: seq<Act>)
    requires e.Valid() && e.Tidy() && !e.closed && InTables(e.Layout()) && none == []
    ensures Keeps(e, parse, e.Data(), Messages(none), 0, map[], 0, 0)
  {
    LagsNowhere(parse, e.Data(), [], e.Layout());
  }

  /** An engine from its opening on, its memtables rotated, flushed and compacted at whatever moments. */
  method Session(e: Engine, parse: Parser, acts: seq<Act>)
      returns (lastApplied: nat, lastSeq: map<string, nat>, ghost p: nat, ghost r: nat)
    requires e.Valid() && e.Tidy() && !e.closed && InTables(e.Layout()) && ShortWrites(parse)
    requires AllLoadable(acts)
    modifies e, e.active
    ensures Keeps(e, parse, old(e.Data()), Messages(acts), lastApplied, lastSeq, p, r)
  {
    ghost var start := e.Data();
    lastApplied, lastSeq, p, r := 0, map[], 0, 0;
    KeepsFromStart(e, parse, acts[..0]);
    assert |acts| == 0 ==> acts[..0] == acts;
    var i := 0;
    while i < |acts|
      invariant 0 <= i <= |acts| && (i == |acts| ==> acts[..i] == acts)
      invariant e.active == old(e.active) || fresh(e.active)
      invariant Keeps(e, parse, start, Messages(acts[..i]), lastApplied, lastSeq, p, r)
    {
      OneMoreAct(acts, i);
      lastApplied, lastSeq, p, r := ActOn(e, parse, acts[i], lastApplied, lastSeq, start, acts[..i], p, r);
      i := i + 1;
    }
  }

  /**
   A session that ends with a crash, whatever its workers have got done by then: an engine opened over what it leaves on
   disk has the data of some first messages of the stream, and nothing of the others.
   */
  method CrashAfter(e: Engine, parse: Parser, acts: seq<Act>) returns (e': Engine, ghost p: nat)
    requires e.Valid() && e.Tidy() && !e.closed && InTables(e.Layout()) && ShortWrites(parse)
    requires AllLoadable(acts)
    modifies e, e.active
    ensures e'.Valid() && e'.Tidy() && !e'.closed && InTables(e'.Layout())
    ensures p <= |Messages(acts)| && e'.Data() == DataAfter(parse, old(e.Data()), Messages(acts), p)
  {
    var lastApplied, lastSeq;
    ghost var r;
    lastApplied, lastSeq, p, r := Session(e, parse, acts);
    e' := Reopen(e);
  }

  /**
   From the cluster down to the tables: an engine that starts with whatever its tables came back with and
   takes in all its node handed out, in any state of any run, holds the effect of exactly the committed
   entries, wherever losing the table of sequence numbers does no harm, if and only if what it started with
   does not show any more.
   */
  method EngineHoldsCommittedIff(e: Engine, parse: Parser, ghost run: seq<Cluster>, ghost i: nat, ghost n: NodeId,
                                 out: seq<ApplyMsg>)
    requires e.Valid() && !e.closed && ShortWrites(parse) && IsFaithfulRun(StoreEncoder(parse), run)
    requires i < |run| && n in run[i].nodes && out == run[i].nodes[n].out
    requires forall p :: 0 <= p < |out| && out[p].Snapshot? ==> Loadable(out[p].data)
    requires var x := run[i].nodes[n]; Harmless(parse, CommittedLog(x), LostAt(x.base, x.out), |CommittedLog(x)|)
    modifies e, e.active
    ensures e.Valid()
    ensures var x := run[i].nodes[n];
            e.Data() == Effect(parse, CommittedLog(x), |CommittedLog(x)|, map[])
            <==> StartGone(parse, CommittedLog(x), x.base, x.out, old(e.Data()))
  {
    ghost var d := e.Data();
    StoreRestores(parse);
    ReplicaHoldsCommitted(parse, StoreDecoder(), StoreEncoder(parse), run, i, n, d);
    var lastApplied, lastSeq := TakeInOn(e, parse, out);
  }

  /**
   With snapshotting off, over any number of crashes: an engine over tables flushed at whatever moment, that replays its
   log and has caught up with what its node had committed before, holds the effect of exactly the committed entries.
   */
  method EngineSurvives(e: Engine, parse: Parser, ghost run: seq<Cluster>, ghost starts: seq<Starts>, ghost i: nat,
                        ghost n: NodeId, out: seq<ApplyMsg>)
    requires e.Valid() && !e.closed && ShortWrites(parse) && IsBareLife(parse, StoreDecoder(), run, starts)
    requires i < |run| && n in run[i].nodes && out == run[i].nodes[n].out && n in starts[i] && e.Data() == starts[i][n]
    requires CaughtUp(run, i, n)
    modifies e, e.active
    ensures e.Valid()
    ensures var log := CommittedLog(run[i].nodes[n]); e.Data() == Effect(parse, log, |log|, map[])
  {
    StoreRestores(parse);
    BareLifeIsRun(parse, StoreDecoder(), run, starts);
    RunBare(parse, StoreDecoder(), run, starts, i);
    assert BareNode(run[i].nodes[n]);
    BareLifeHoldsIff(parse, StoreDecoder(), StoreWriter(), run, starts, i, n);
    var lastApplied, lastSeq := TakeInOn(e, parse, out);
  }
}
