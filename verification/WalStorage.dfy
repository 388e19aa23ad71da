/**
 The write-ahead log under a node: in runs without repeated batches, what the handlers make the log do is only ever to
 append fresh tails, to cut it at either end and to open it again, and it replays as the entries the node has in memory.
 */
module WalStorage {

  import opened Wrappers
  import opened Bytes
  import opened RaftTypes
  import opened RaftSpec
  import opened RaftCluster
  import opened RaftInvariant
  import opened RaftLimits
  import opened RaftDurable
  import opened Wal
  import opened WalLog

  // ---------------------------------------------------------------- operations one after the other

  lemma {:induction false} PlainConcat(es: seq<Entry>, a: seq<Op>, b: seq<Op>)
    ensures PlainAll(es, a + b) == PlainAll(PlainAll(es, a), b)
  {
    if b == [] {
      assert a + b == a;
    } else {
      PlainConcat(es, a, b[..|b| - 1]);
      assert (a + b)[..|a + b| - 1] == a + b[..|b| - 1];
    }
  }

  lemma {:induction false} NextConcat(es: seq<Entry>, next: nat, a: seq<Op>, b: seq<Op>)
    ensures NextFreeAll(es, next, a + b) == NextFreeAll(PlainAll(es, a), NextFreeAll(es, next, a), b)
  {
    if b == [] {
      assert a + b == a;
    } else {
      NextConcat(es, next, a, b[..|b| - 1]);
      PlainConcat(es, a, b[..|b| - 1]);
      assert (a + b)[..|a + b| - 1] == a + b[..|b| - 1];
    }
  }

  lemma {:induction false} FreshConcat(c: Codec, es: seq<Entry>, next: nat, a: seq<Op>, b: seq<Op>)
    requires FreshAll(c, es, next, a) && FreshAll(c, PlainAll(es, a), NextFreeAll(es, next, a), b)
    ensures FreshAll(c, es, next, a + b)
  {
    if b == [] {
      assert a + b == a;
    } else {
      LastOfBoth(a, b);
      FreshConcat(c, es, next, a, b[..|b| - 1]);
      NextConcat(es, next, a, b[..|b| - 1]);
    }
  }

  /** A lower first free index only allows more. */
  lemma {:induction false} FreshLower(c: Codec, es: seq<Entry>, low: nat, high: nat, ops: seq<Op>)
    requires low <= high && FreshAll(c, es, high, ops)
    ensures FreshAll(c, es, low, ops) && NextFreeAll(es, low, ops) <= NextFreeAll(es, high, ops)
  {
    if ops != [] {
      FreshLower(c, es, low, high, ops[..|ops| - 1]);
    }
  }

  /** The operations take one durable log to the other, and only ever append what is fresh. */
  ghost predicate Turns(c: Codec, x: NodeState, ops: seq<Op>, x': NodeState) {
    && FreshAll(c, x.disk.entries, |x.log| + 1, ops)
    && PlainAll(x.disk.entries, ops) == x'.disk.entries
    && NextFreeAll(x.disk.entries, |x.log| + 1, ops) <= |x'.log| + 1
  }

  ghost predicate Small(c: Codec, x: NodeState) { forall i :: 0 <= i < |x.log| ==> SmallEnough(c, x.log[i]) }

  lemma OneOp(c: Codec, es: seq<Entry>, next: nat, op: Op)
    ensures FreshAll(c, es, next, [op]) <==> Fresh(c, next, op)
    ensures PlainAll(es, [op]) == PlainAfter(es, op) && NextFreeAll(es, next, [op]) == NextFree(es, next, op)
  {
    assert [op][..0] == [];
  }

  lemma NoOp(c: Codec, x: NodeState, x': NodeState)
    requires x'.disk.entries == x.disk.entries && x'.log == x.log
    ensures Turns(c, x, [], x')
  {
  }

  // ---------------------------------------------------------------- what each handler asks of the log

  function ProposeOps(x: NodeState, data: Bytes): seq<Op> {
    if x.role == Leader then [Append([Entry(|x.log| + 1, x.currentTerm, data)])] else []
  }

  function CompactOps(x: NodeState, index: nat): seq<Op> {
    if index <= x.snapIndex || index > x.commitIndex then [] else [Prefix(index)]
  }

  function InstallOps(x: NodeState, req: SnapshotRequest): seq<Op> {
    if Installs(x, req) then [Prefix(req.lastIncludedIndex)] else []
  }

  /** The log is cut at the first conflict, if there is one, and then gets the whole batch. */
  function AbsorbOps(x: NodeState, req: AppendRequest): seq<Op> {
    var d := Divergence(x.log, x.snapIndex, req.prevLogIndex, req.entries, req.prevLogIndex + 1);
    (if d <= Reach(req) && d <= |x.log| then [Suffix(d - 1)] else [])
      + (if req.entries == [] then [] else [Append(req.entries)])
  }

  function AppendOps(x: NodeState, req: AppendRequest): seq<Op> {
    if HandleAppendEntries(x, req).1.success then AbsorbOps(x, req) else []
  }

  /** What the step asks of the log of node n. */
  function StepOps(s: Cluster, step: Step, n: NodeId): seq<Op>
    requires Enabled(s, step)
  {
    if Perform(s, step).n != n then [] else
    var x := s.nodes[Perform(s, step).n];
    match step
    case ClientPropose(_, data) => ProposeOps(x, data)
    case Compact(_, e, _) => CompactOps(x, e.index)
    case DeliverAppendCall(m) => AppendOps(x, m.append)
    case DeliverSnapshotCall(m) => InstallOps(x, m.snap)
    case CrashAndRestart(_) => [Reopen]
    case _ => []
  }

  // ---------------------------------------------------------------- what that comes to

  lemma ProposeTurns(c: Codec, cfg: Config, x: NodeState, data: Bytes)
    requires Small(c, Propose(cfg, x, data))
    ensures Turns(c, x, ProposeOps(x, data), Propose(cfg, x, data))
  {
    if x.role == Leader {
      var e := Entry(|x.log| + 1, x.currentTerm, data);
      assert Propose(cfg, x, data).log[|x.log|] == e;
      OneOp(c, x.disk.entries, |x.log| + 1, Append([e]));
    }
  }

  lemma PrefixNext(x: NodeState, index: nat)
    requires DiskInStep(x) && Indexed(x.log) && x.snapIndex <= index
    ensures NextAfter(KeepAbove(x.disk.entries, index), index + 1)
         == if index <= |x.log| then |x.log| + 1 else index + 1
  {
    KeptAbove(x.log, x.snapIndex, |x.log|, index);
    assert x.log[x.snapIndex..|x.log|] == x.log[x.snapIndex..];
  }

  lemma CompactTurns(c: Codec, x: NodeState, data: Bytes, index: nat, term: nat)
    requires DiskInStep(x) && Indexed(x.log) && x.commitIndex <= |x.log|
    ensures Turns(c, x, CompactOps(x, index), CompactLog(x, data, index, term))
  {
    if x.snapIndex < index <= x.commitIndex {
      OneOp(c, x.disk.entries, |x.log| + 1, Prefix(index));
      PrefixNext(x, index);
    }
  }

  lemma InstallStores(x: NodeState, req: SnapshotRequest, covered: seq<Entry>)
    ensures var x' := HandleInstallSnapshot(x, req, covered).0;
            if Installs(x, req) then
              && x'.disk.entries == KeepAbove(x.disk.entries, req.lastIncludedIndex)
              && |x'.log| == req.lastIncludedIndex
            else x'.disk.entries == x.disk.entries && x'.log == x.log
  {
  }

  lemma InstallTurns(c: Codec, x: NodeState, req: SnapshotRequest, covered: seq<Entry>)
    requires DiskInStep(x) && Indexed(x.log) && (Installs(x, req) ==> |x.log| <= req.lastIncludedIndex)
    ensures Turns(c, x, InstallOps(x, req), HandleInstallSnapshot(x, req, covered).0)
  {
    InstallStores(x, req, covered);
    if Installs(x, req) {
      OneOp(c, x.disk.entries, |x.log| + 1, Prefix(req.lastIncludedIndex));
      PrefixNext(x, req.lastIncludedIndex);
    }
  }

  /** The batch follows the first prev entries of the log. */
  ghost predicate Continues(c: Codec, prev: nat, entries: seq<Entry>) {
    forall j :: 0 <= j < |entries| ==> entries[j].index == prev + 1 + j && SmallEnough(c, entries[j])
  }

  lemma TailIsFresh(c: Codec, prev: nat, entries: seq<Entry>, next: nat)
    requires Continues(c, prev, entries) && next <= prev + 1
    ensures FreshTail(c, next, entries)
  {
  }

  lemma SuffixNext(log: seq<Entry>, lo: nat, prev: nat)
    requires Indexed(log) && lo <= prev <= |log|
    ensures NextAfter(KeepUpTo(log[lo..], prev), 1) <= prev + 1 && KeepUpTo(log[lo..], prev) == log[lo..prev]
  {
    KeptIsPrefix(log, lo, |log|, prev);
    assert log[lo..|log|] == log[lo..];
  }

  /** Cutting the log back to prev and writing the batch behind. */
  function Replace(log: seq<Entry>, prev: nat, entries: seq<Entry>): seq<Op> {
    (if prev < |log| then [Suffix(prev)] else []) + [Append(entries)]
  }

  lemma NewBatchTurns(c: Codec, x: NodeState, prev: nat, entries: seq<Entry>, x': NodeState)
    requires DiskInStep(x) && Indexed(x.log) && x.snapIndex <= prev <= |x.log| && entries != []
    requires Continues(c, prev, entries)
    requires x'.disk.entries == x.log[x.snapIndex..prev] + entries && |x'.log| == prev + |entries|
    ensures Turns(c, x, Replace(x.log, prev, entries), x')
  {
    var es, next := x.disk.entries, |x.log| + 1;
    if prev < |x.log| {
      SuffixNext(x.log, x.snapIndex, prev);
      OneOp(c, es, next, Suffix(prev));
      var kept, next' := KeepUpTo(es, prev), NextAfter(KeepUpTo(es, prev), 1);
      TailIsFresh(c, prev, entries, next');
      OneOp(c, kept, next', Append(entries));
      FreshConcat(c, es, next, [Suffix(prev)], [Append(entries)]);
      PlainConcat(es, [Suffix(prev)], [Append(entries)]);
      NextConcat(es, next, [Suffix(prev)], [Append(entries)]);
    } else {
      TailIsFresh(c, prev, entries, next);
      OneOp(c, es, next, Append(entries));
      assert x.log[x.snapIndex..prev] == es && [] + [Append(entries)] == [Append(entries)];
    }
  }

  /** A batch that parts from the log right behind prev replaces all behind prev, in memory and in storage. */
  lemma PartsAtOnce(log: seq<Entry>, snapIndex: nat, prev: nat, entries: seq<Entry>)
    requires Indexed(log) && snapIndex <= prev <= |log| && entries != []
    requires Divergence(log, snapIndex, prev, entries, prev + 1) == prev + 1
    ensures Splice(log, snapIndex, prev, entries) == log[..prev] + entries
    ensures Cut(log[snapIndex..], log, snapIndex, prev, entries) == log[snapIndex..prev]
  {
    CutIsPrefix(log, snapIndex, prev, entries);
    assert entries[0..] == entries;
    assert prev == |log| ==> log[..prev] == log && log[snapIndex..prev] == log[snapIndex..];
  }

  lemma AbsorbedAtOnce(x: NodeState, req: AppendRequest)
    requires DiskInStep(x) && Indexed(x.log) && x.snapIndex <= req.prevLogIndex <= |x.log| && req.entries != []
    requires Divergence(x.log, x.snapIndex, req.prevLogIndex, req.entries, req.prevLogIndex + 1) == req.prevLogIndex + 1
    ensures var x' := AbsorbEntries(x, req);
            && x'.log == x.log[..req.prevLogIndex] + req.entries
            && x'.disk.entries == x.log[x.snapIndex..req.prevLogIndex] + req.entries
  {
    PartsAtOnce(x.log, x.snapIndex, req.prevLogIndex, req.entries);
  }

  lemma OpsAtOnce(x: NodeState, req: AppendRequest)
    requires req.prevLogIndex <= |x.log| && req.entries != []
    requires Divergence(x.log, x.snapIndex, req.prevLogIndex, req.entries, req.prevLogIndex + 1) == req.prevLogIndex + 1
    ensures AbsorbOps(x, req) == Replace(x.log, req.prevLogIndex, req.entries)
  {
  }

  /** What an accepted batch that brings only new entries leaves in memory and in storage. */
  lemma NewBatchTaken(x: NodeState, req: AppendRequest)
    requires DiskInStep(x) && Indexed(x.log) && req.prevLogIndex <= |x.log| && req.entries != []
    requires BringsOnlyNew(x, req)
    ensures x.snapIndex <= req.prevLogIndex
    ensures var x' := AbsorbEntries(x, req);
            && x'.log == x.log[..req.prevLogIndex] + req.entries
            && x'.disk.entries == x.log[x.snapIndex..req.prevLogIndex] + req.entries
    ensures AbsorbOps(x, req) == Replace(x.log, req.prevLogIndex, req.entries)
  {
    PartsAtOnceIff(x, req);
    AbsorbedAtOnce(x, req);
    OpsAtOnce(x, req);
  }

  lemma EntriesContinue(c: Codec, log: seq<Entry>, prev: nat, entries: seq<Entry>, log': seq<Entry>)
    requires prev <= |log| && log' == log[..prev] + entries && Indexed(log')
    requires forall i :: 0 <= i < |log'| ==> SmallEnough(c, log'[i])
    ensures Continues(c, prev, entries)
  {
    forall j | 0 <= j < |entries| ensures entries[j].index == prev + 1 + j && SmallEnough(c, entries[j]) {
      assert log'[prev + j] == entries[j];
    }
  }

  lemma AbsorbTurns(c: Codec, x: NodeState, req: AppendRequest)
    requires DiskInStep(x) && Indexed(x.log) && req.prevLogIndex <= |x.log| && BringsOnlyNew(x, req)
    requires Indexed(AbsorbEntries(x, req).log) && Small(c, AbsorbEntries(x, req))
    ensures Turns(c, x, AbsorbOps(x, req), AbsorbEntries(x, req))
  {
    var x' := AbsorbEntries(x, req);
    if req.entries == [] {
      assert x.disk.entries + [] == x.disk.entries;
    } else {
      NewBatchTaken(x, req);
      EntriesContinue(c, x.log, req.prevLogIndex, req.entries, x'.log);
      NewBatchTurns(c, x, req.prevLogIndex, req.entries, x');
    }
  }

  lemma AppendParts(x: NodeState, req: AppendRequest)
    ensures var (x', answer) := HandleAppendEntries(x, req);
            var x1 := HearLeader(x, req.term, req.leaderId);
            && x1.log == x.log && x1.snapIndex == x.snapIndex && x1.disk.entries == x.disk.entries
            && if answer.success then x' == AbsorbEntries(x1, req) && req.prevLogIndex <= |x.log|
               else x'.log == x.log && x'.disk.entries == x.disk.entries
  {
  }

  lemma AppendTurns(c: Codec, x: NodeState, req: AppendRequest)
    requires DiskInStep(x) && Indexed(x.log) && (HandleAppendEntries(x, req).1.success ==> BringsOnlyNew(x, req))
    requires var x' := HandleAppendEntries(x, req).0; Indexed(x'.log) && Small(c, x')
    ensures Turns(c, x, AppendOps(x, req), HandleAppendEntries(x, req).0)
  {
    AppendParts(x, req);
    if HandleAppendEntries(x, req).1.success {
      var x1 := HearLeader(x, req.term, req.leaderId);
      AbsorbTurns(c, x1, req);
      TurnsLike(c, x, x1, AbsorbOps(x, req), AbsorbEntries(x1, req));
    } else {
      NoOp(c, x, HandleAppendEntries(x, req).0);
    }
  }

  lemma TurnsLike(c: Codec, x: NodeState, x1: NodeState, ops: seq<Op>, x': NodeState)
    requires x1.log == x.log && x1.disk.entries == x.disk.entries && Turns(c, x1, ops, x')
    ensures Turns(c, x, ops, x')
  {
  }

  // ---------------------------------------------------------------- what each step does

  lemma MoveTurns(c: Codec, s: Cluster, step: Step)
    requires Enabled(s, step) && Careful(s, step) && !step.CrashAndRestart?
    requires var x := s.nodes[Perform(s, step).n]; DiskInStep(x) && Indexed(x.log) && x.commitIndex <= |x.log|
    requires Indexed(Perform(s, step).x.log) && Small(c, Perform(s, step).x)
    ensures Turns(c, s.nodes[Perform(s, step).n], StepOps(s, step, Perform(s, step).n), Perform(s, step).x)
  {
    var x := s.nodes[Perform(s, step).n];
    if step.ClientPropose? {
      ProposeTurns(c, Cfg(s, step.n), x, step.data);
    } else if step.Compact? {
      CompactTurns(c, x, step.data, step.entry.index, step.entry.term);
    } else if step.DeliverAppendCall? {
      AppendTurns(c, x, step.m.append);
    } else if step.DeliverSnapshotCall? {
      InstallTurns(c, x, step.m.snap, Covered(s, step.m.snap));
    } else {
      PlainStepsStore(s, step);
      NoOp(c, x, Perform(s, step).x);
    }
  }

  lemma RestartTurns(c: Codec, x: NodeState)
    requires DiskOk(x) && DiskInStep(x)
    ensures Turns(c, x, [Reopen], Restart(x.disk, x.log[..x.snapIndex]))
  {
    OneOp(c, x.disk.entries, |x.log| + 1, Reopen);
    RestartRestoresLogIff(x);
  }

  lemma ApplyNode(s: Cluster, step: Step, n: NodeId)
    requires Enabled(s, step) && n in s.nodes
    ensures var o := Perform(s, step);
            n in Apply(s, step).nodes && Apply(s, step).nodes[n] == if n == o.n then o.x else s.nodes[n]
  {
  }

  lemma OthersUntouched(s: Cluster, step: Step, n: NodeId)
    requires Enabled(s, step) && n != Perform(s, step).n
    ensures StepOps(s, step, n) == []
  {
  }

  lemma ActorInPlace(s: Cluster, n: NodeId)
    requires Good(s) && AllInStep(s) && n in s.nodes
    ensures var x := s.nodes[n]; DiskInStep(x) && Indexed(x.log) && x.commitIndex <= |x.log|
  {
    NodeInPlace(s, n);
  }

  lemma StepTurns(c: Codec, s: Cluster, step: Step, n: NodeId, x': NodeState)
    requires Good(s) && AllInStep(s) && Enabled(s, step) && Careful(s, step) && !step.CrashAndRestart? && n in s.nodes
    requires x' == (if n == Perform(s, step).n then Perform(s, step).x else s.nodes[n]) && Indexed(x'.log)
    requires Small(c, x')
    ensures Turns(c, s.nodes[n], StepOps(s, step, n), x')
  {
    if n == Perform(s, step).n {
      ActorInPlace(s, n);
      MoveTurns(c, s, step);
    } else {
      OthersUntouched(s, step, n);
      NoOp(c, s.nodes[n], s.nodes[n]);
    }
  }

  function RestartOps(m: NodeId, n: NodeId): seq<Op> { if m == n then [Reopen] else [] }

  lemma RestartedTurns(c: Codec, s: Cluster, m: NodeId, n: NodeId)
    requires Good(s) && AllInStep(s) && Present(s, m) && n in s.nodes
    ensures Turns(c, s.nodes[n], RestartOps(m, n), Restarted(s, m).nodes[n])
  {
    if n == m {
      NodeInPlace(s, n);
      assert DiskInStep(s.nodes[n]);
      RestartTurns(c, s.nodes[n]);
    } else {
      NoOp(c, s.nodes[n], s.nodes[n]);
    }
  }

  /** These are the operations asked of the log of node n between the two states. */
  ghost predicate Issued(s: Cluster, s': Cluster, n: NodeId, ops: seq<Op>) {
    || (exists step :: Enabled(s, step) && !step.CrashAndRestart? && Careful(s, step) && s' == Apply(s, step)
                       && ops == StepOps(s, step, n))
    || (exists m :: Present(s, m) && s' == Restarted(s, m) && ops == RestartOps(m, n))
  }

  lemma IssuedTurns(c: Codec, s: Cluster, s': Cluster, n: NodeId, ops: seq<Op>)
    requires Good(s) && AllInStep(s) && Issued(s, s', n, ops) && n in s.nodes
    requires n in s'.nodes && Indexed(s'.nodes[n].log) && Small(c, s'.nodes[n])
    ensures Turns(c, s.nodes[n], ops, s'.nodes[n])
  {
    if step :| && Enabled(s, step) && !step.CrashAndRestart? && Careful(s, step)
               && s' == Apply(s, step) && ops == StepOps(s, step, n)
    {
      ApplyNode(s, step, n);
      StepTurns(c, s, step, n, s'.nodes[n]);
    } else {
      var m :| Present(s, m) && s' == Restarted(s, m) && ops == RestartOps(m, n);
      RestartedTurns(c, s, m, n);
    }
  }

  // ---------------------------------------------------------------- whole runs

  ghost predicate SmallRun(c: Codec, run: seq<Cluster>) {
    forall i, n :: 0 <= i < |run| && n in run[i].nodes ==> Small(c, run[i].nodes[n])
  }

  /** A log that started empty has come to hold what the node's storage holds. */
  ghost predicate Writes(c: Codec, ops: seq<Op>, x: NodeState) {
    FreshAll(c, [], 1, ops) && PlainAll([], ops) == x.disk.entries && NextFreeAll([], 1, ops) <= |x.log| + 1
  }

  lemma WritesOn(c: Codec, ops: seq<Op>, x: NodeState, more: seq<Op>, x': NodeState)
    requires Writes(c, ops, x) && Turns(c, x, more, x')
    ensures Writes(c, ops + more, x')
  {
    FreshLower(c, x.disk.entries, NextFreeAll([], 1, ops), |x.log| + 1, more);
    FreshConcat(c, [], 1, ops, more);
    PlainConcat([], ops, more);
    NextConcat([], 1, ops, more);
  }

  lemma SameNodes(run: seq<Cluster>, i: nat, n: NodeId)
    requires IsCarefulRun(run) && i + 1 < |run| && n in run[i + 1].nodes
    ensures n in run[i].nodes && Indexed(run[i + 1].nodes[n].log)
    ensures Good(run[i]) && AllInStep(run[i]) && CarefulNext(run[i], run[i + 1])
  {
    CarefulStates(run, i, run[i]);
    CarefulStates(run, i + 1, run[i + 1]);
    CarefulSteps(run, i, run[i], run[i + 1]);
    NodeInPlace(run[i + 1], n);
    KeepsNodes(run[i], run[i + 1]);
  }

  lemma KeepsNodes(s: Cluster, s': Cluster)
    requires CarefulNext(s, s')
    ensures s'.nodes.Keys == s.nodes.Keys
  {
  }

  /** The operations asked of the log of node n in the first i steps, step by step. */
  ghost predicate IsJournal(run: seq<Cluster>, n: NodeId, i: nat, journal: seq<seq<Op>>) {
    i < |run| && |journal| == i && forall j :: 0 <= j < i ==> Issued(run[j], run[j + 1], n, journal[j])
  }

  function Flat(journal: seq<seq<Op>>): seq<Op> {
    if journal == [] then [] else Flat(journal[..|journal| - 1]) + journal[|journal| - 1]
  }

  lemma WritesNext(c: Codec, run: seq<Cluster>, i: nat, n: NodeId, before: seq<Op>, more: seq<Op>)
    requires IsCarefulRun(run) && SmallRun(c, run) && i + 1 < |run| && n in run[i + 1].nodes && n in run[i].nodes
    requires Writes(c, before, run[i].nodes[n]) && Issued(run[i], run[i + 1], n, more)
    ensures Writes(c, before + more, run[i + 1].nodes[n])
  {
    SameNodes(run, i, n);
    IssuedTurns(c, run[i], run[i + 1], n, more);
    WritesOn(c, before, run[i].nodes[n], more, run[i + 1].nodes[n]);
  }

  lemma WritesFirst(c: Codec, run: seq<Cluster>, n: NodeId)
    requires IsCarefulRun(run) && n in run[0].nodes
    ensures Writes(c, [], run[0].nodes[n])
  {
    assert run[0].nodes[n] == Restart(BLANK_DISK, []);
  }

  lemma {:induction false} RunWrites(c: Codec, run: seq<Cluster>, i: nat, n: NodeId, journal: seq<seq<Op>>)
    requires IsCarefulRun(run) && SmallRun(c, run) && IsJournal(run, n, i, journal) && n in run[i].nodes
    ensures Writes(c, Flat(journal), run[i].nodes[n])
  {
    if i == 0 {
      WritesFirst(c, run, n);
    } else {
      NodesStay(run, i - 1, n);
      RunWrites(c, run, i - 1, n, journal[..i - 1]);
      WritesNext(c, run, i - 1, n, Flat(journal[..i - 1]), journal[i - 1]);
    }
  }

  lemma NodesStay(run: seq<Cluster>, i: nat, n: NodeId)
    requires IsCarefulRun(run) && i + 1 < |run| && n in run[i + 1].nodes
    ensures n in run[i].nodes
  {
    CarefulSteps(run, i, run[i], run[i + 1]);
    KeepsNodes(run[i], run[i + 1]);
  }

  /**
   Durable logs, from the handlers down to the write-ahead log: in every run without repeated batches, crashes included,
   for every node at every moment, the operations the handlers asked for append nothing but fresh tails, and make of an
   empty log exactly the entries the node has in memory above its snapshot.
   */
  lemma WalHoldsLog(c: Codec, run: seq<Cluster>, i: nat, n: NodeId, journal: seq<seq<Op>>)
    requires IsCarefulRun(run) && SmallRun(c, run) && IsJournal(run, n, i, journal) && n in run[i].nodes
    ensures FreshAll(c, [], 1, Flat(journal))
    ensures var x := run[i].nodes[n]; x.snapIndex <= |x.log| && PlainAll([], Flat(journal)) == x.log[x.snapIndex..]
  {
    RunWrites(c, run, i, n, journal);
    CarefulRunIsRun(run);
    assert DiskInStep(run[i].nodes[n]);
  }

  /** A fresh log, as files of bytes, that performed these operations and is read back at a restart. */
  method RebuildLog(c: Codec, ghost run: seq<Cluster>, ghost i: nat, ghost n: NodeId, journal: seq<seq<Op>>)
      returns (entries: Option<seq<Entry>>)
    requires Sound(c) && IsCarefulRun(run) && SmallRun(c, run) && IsJournal(run, n, i, journal) && n in run[i].nodes
    ensures var x := run[i].nodes[n]; x.snapIndex <= |x.log| && entries == Some(x.log[x.snapIndex..])
  {
    WalHoldsLog(c, run, i, n, journal);
    var w := Open(c, []);
    w := PerformAll(w, Flat(journal), 1);
    entries := w.ReadAll();
  }
}
