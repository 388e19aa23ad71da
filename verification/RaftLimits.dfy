/**
 Where the handlers keep less than they promise, and exactly when they keep it: what a crash right after
 AppendEntries brings back, what installing a snapshot throws away, what compaction changes, and when the
 search for a common entry comes to an end.
 */
module RaftLimits {

  import opened Bytes
  import opened RaftTypes
  import opened RaftSpec
  import opened RaftCore
  import opened RaftCluster
  import opened RaftInvariant
  import opened RaftElectionSteps
  import opened RaftFollowerSteps
  import opened RaftSafety
  import opened RaftTheorems

  // ---------------------------------------------------------------- durability of appended entries

  /** The batch is empty, or its first entry is one the log does not have yet. */
  predicate BringsOnlyNew(x: NodeState, req: AppendRequest) {
    || req.entries == []
    || (&& req.prevLogIndex >= x.snapIndex
        && (req.prevLogIndex < |x.log| ==> x.log[req.prevLogIndex].term != req.entries[0].term))
  }

  lemma {:induction false} KeptIsPrefix(log: seq<Entry>, lo: nat, hi: nat, k: nat)
    requires Indexed(log) && lo <= hi <= |log| && lo <= k <= |log|
    ensures KeepUpTo(log[lo..hi], k) == log[lo..Min(hi, k)]
    ensures lo <= hi ==> Min(hi, k) >= lo
    decreases hi - lo
  {
    if lo < hi {
      KeptIsPrefix(log, lo, hi - 1, k);
      assert log[lo..hi][..hi - lo - 1] == log[lo..hi - 1];
    }
  }

  lemma {:induction false} KeptAbove(log: seq<Entry>, lo: nat, hi: nat, k: nat)
    requires Indexed(log) && lo <= hi <= |log| && lo <= k
    ensures KeepAbove(log[lo..hi], k) == if k <= hi then log[k..hi] else []
    decreases hi - lo
  {
    if lo < hi {
      KeptAbove(log, lo, hi - 1, k);
      assert log[lo..hi][..hi - lo - 1] == log[lo..hi - 1];
    }
  }

  /** The first entry is where the batch and the log part exactly if the batch brings only new entries. */
  lemma PartsAtOnceIff(x: NodeState, req: AppendRequest)
    requires x.snapIndex <= |x.log| && req.prevLogIndex <= |x.log| && req.entries != []
    ensures var d := Divergence(x.log, x.snapIndex, req.prevLogIndex, req.entries, req.prevLogIndex + 1);
            d == req.prevLogIndex + 1 <==> BringsOnlyNew(x, req)
  {
  }

  /** What storage keeps of the old log: all of it, or what lies before the conflict. */
  lemma CutIsPrefix(log: seq<Entry>, snapIndex: nat, prev: nat, entries: seq<Entry>)
    requires Indexed(log) && prev <= |log| && snapIndex <= |log|
    ensures var d := Divergence(log, snapIndex, prev, entries, prev + 1);
            && (d <= prev + |entries| ==> snapIndex < d)
            && Cut(log[snapIndex..], log, snapIndex, prev, entries)
                 == if d <= prev + |entries| && d <= |log| then log[snapIndex..d - 1] else log[snapIndex..]
  {
    var d := Divergence(log, snapIndex, prev, entries, prev + 1);
    DivergenceMeaning(log, snapIndex, prev, entries, prev + 1);
    if d <= prev + |entries| && d <= |log| {
      KeptIsPrefix(log, snapIndex, |log|, d - 1);
      assert log[snapIndex..|log|] == log[snapIndex..];
    }
  }

  ghost predicate PersistedInStep(log: seq<Entry>, snapIndex: nat, prev: nat, entries: seq<Entry>)
    requires snapIndex <= |log|
  {
    && snapIndex <= |Splice(log, snapIndex, prev, entries)|
    && Persist(log[snapIndex..], log, snapIndex, prev, entries) == Splice(log, snapIndex, prev, entries)[snapIndex..]
  }

  lemma NewBatchInStep(log: seq<Entry>, snapIndex: nat, prev: nat, entries: seq<Entry>)
    requires Indexed(log) && prev <= |log| && snapIndex <= |log|
    requires entries == [] || Divergence(log, snapIndex, prev, entries, prev + 1) == prev + 1
    ensures PersistedInStep(log, snapIndex, prev, entries)
  {
    CutIsPrefix(log, snapIndex, prev, entries);
    if entries != [] {
      assert entries[0..] == entries;
      assert (log[..prev] + entries)[snapIndex..] == log[snapIndex..prev] + entries;
    }
  }

  lemma OldBatchOutOfStep(log: seq<Entry>, snapIndex: nat, prev: nat, entries: seq<Entry>)
    requires Indexed(log) && prev <= |log| && snapIndex <= |log|
    requires entries != [] && Divergence(log, snapIndex, prev, entries, prev + 1) > prev + 1
    ensures !PersistedInStep(log, snapIndex, prev, entries)
  {
    CutIsPrefix(log, snapIndex, prev, entries);
    DivergenceInReach(log, snapIndex, prev, entries);
    var log' := Splice(log, snapIndex, prev, entries);
    assert snapIndex <= |log'| ==> |Persist(log[snapIndex..], log, snapIndex, prev, entries)| > |log'[snapIndex..]|;
  }

  /** Storage keeps step with memory over an accepted batch exactly if the batch brings only new entries. */
  lemma StaysInStepIff(x: NodeState, req: AppendRequest)
    requires DiskInStep(x) && Indexed(x.log) && req.prevLogIndex <= |x.log|
    ensures DiskInStep(AbsorbEntries(x, req)) <==> BringsOnlyNew(x, req)
  {
    if req.entries != [] {
      PartsAtOnceIff(x, req);
    }
    if BringsOnlyNew(x, req) {
      NewBatchInStep(x.log, x.snapIndex, req.prevLogIndex, req.entries);
    } else {
      OldBatchOutOfStep(x.log, x.snapIndex, req.prevLogIndex, req.entries);
    }
    assert DiskInStep(AbsorbEntries(x, req)) <==> PersistedInStep(x.log, x.snapIndex, req.prevLogIndex, req.entries);
  }

  /** A node restarted from its disk has the log it had in memory exactly if the two were in step. */
  lemma RestartRestoresLogIff(x: NodeState)
    requires x.disk.snapIndex == x.snapIndex <= |x.log|
    requires x.disk.snapTerm == x.snapTerm && x.snapTerm == TermAt(x.log, x.snapIndex)
    ensures Restart(x.disk, x.log[..x.snapIndex]).log == x.log <==> DiskInStep(x)
  {
    var covered := x.log[..x.snapIndex];
    assert SnapshotLog(covered, x.snapIndex, x.snapTerm) == covered;
    assert x.log == covered + x.log[x.snapIndex..];
    assert (covered + x.disk.entries)[x.snapIndex..] == x.disk.entries;
  }

  /**
   A compaction up to any index the node has committed takes effect: what it covers is gone from storage, nothing else
   is, and a node restarted from there on has the log it had; beyond the commit index, or behind the snapshot the node
   already has, nothing changes.
   */
  lemma CompactionFreesStorage(x: NodeState, data: Bytes, index: nat, any: nat)
    requires x.snapIndex <= x.commitIndex <= |x.log| && Indexed(x.log) && DiskInStep(x)
    ensures index <= x.snapIndex || index > x.commitIndex ==> CompactLog(x, data, index, any) == x
    ensures x.snapIndex < index <= x.commitIndex ==>
              var term := TermAt(x.log, index);
              var x' := CompactLog(x, data, index, term);
              && x'.snapIndex == x'.disk.snapIndex == index && x'.disk.snapshot == data
              && x'.disk.entries == x.log[index..] && x.disk.entries == x.log[x.snapIndex..index] + x'.disk.entries
              && Restart(x'.disk, x.log[..index]).log == x.log && x'.log == x.log && x'.out == x.out
  {
    if x.snapIndex < index <= x.commitIndex {
      KeptAbove(x.log, x.snapIndex, |x.log|, index);
      assert x.log[x.snapIndex..|x.log|] == x.log[x.snapIndex..] && x.log[index..|x.log|] == x.log[index..];
      assert x.log[x.snapIndex..] == x.log[x.snapIndex..index] + x.log[index..];
      RestartRestoresLogIff(CompactLog(x, data, index, TermAt(x.log, index)));
    }
  }

  const FIRST := Entry(1, 1, [])
  const SECOND := Entry(2, 1, [])

  /** The follower after a request was delivered, repeated, and the follower restarted. */
  function AfterRepeat(req: AppendRequest): NodeState {
    var x := HandleAppendEntries(Restart(BLANK_DISK, []), req).0;
    var y := HandleAppendEntries(x, req).0;
    Restart(y.disk, [])
  }

  /** A repeated request: the entry is in storage twice, and a restarted node has it at two indexes. */
  lemma RepeatedBatchIsDoubled()
    ensures AfterRepeat(AppendRequest(1, "a", 0, 0, [FIRST], 0)).log == [FIRST, FIRST]
  {
    var req := AppendRequest(1, "a", 0, 0, [FIRST], 0);
    var z := Restart(BLANK_DISK, []);
    assert z.log == [];
    var x := HandleAppendEntries(z, req).0;
    assert x.log == [FIRST] && x.disk.entries == [FIRST];
    assert Divergence(x.log, 0, 0, [FIRST], 1) == 2;
    var y := HandleAppendEntries(x, req).0;
    assert y.log == [FIRST] && y.disk.entries == [FIRST, FIRST];
  }

  /**
   Its leader, whose log is FIRST and then SECOND, finds the restarted node up to date, and the node hands out
   FIRST again where the others hand out SECOND.
   */
  lemma DoubledEntryIsHandedOut(x: NodeState)
    requires x == AfterRepeat(AppendRequest(1, "a", 0, 0, [FIRST], 0))
    ensures var (y, resp) := HandleAppendEntries(x, AppendRequest(1, "a", 2, 1, [], 2));
            resp.success && y.out == [Command(FIRST), Command(FIRST)] && TermAt(y.log, 2) == SECOND.term
  {
    RepeatedBatchIsDoubled();
    var req := AppendRequest(1, "a", 2, 1, [], 2);
    var x1 := HearLeader(x, 1, "a");
    assert x.out == [] && x.commitIndex == 0 && x.snapIndex == 0 && x.log == [FIRST, FIRST];
    assert Divergence(x1.log, 0, 2, [], 3) == 3;
    assert x1.log[0..2] == [FIRST, FIRST];
    assert Commands([FIRST, FIRST]) == [Command(FIRST), Command(FIRST)];
  }

  // ---------------------------------------------------------------- what an installed snapshot throws away

  function AfterInstall(x: NodeState, req: SnapshotRequest, covered: seq<Entry>): NodeState {
    HandleInstallSnapshot(x, req, covered).0
  }

  /** The snapshot stands for `covered`. */
  ghost predicate StandsFor(x: NodeState, req: SnapshotRequest, covered: seq<Entry>) {
    && |covered| == req.lastIncludedIndex
    && ReceiveChunk(x.transfer, req).Receiving? && LastTerm(covered) == ReceiveChunk(x.transfer, req).term
  }

  lemma InstallIs(x: NodeState, req: SnapshotRequest, covered: seq<Entry>)
    requires Installs(x, req) && ReceiveChunk(x.transfer, req).Receiving?
    ensures var x1 := HearLeader(x, req.term, req.leaderId);
            && x1.transfer == x.transfer && x1.disk.entries == x.disk.entries
            && AfterInstall(x, req, covered) == Install(x1, ReceiveChunk(x.transfer, req), covered)
  {
  }

  lemma InstallReplacesLog(x: NodeState, req: SnapshotRequest, covered: seq<Entry>)
    requires Installs(x, req) && StandsFor(x, req, covered)
    ensures var x' := AfterInstall(x, req, covered);
            && x'.log == covered && x'.snapIndex == req.lastIncludedIndex
            && x'.disk.entries == KeepAbove(x.disk.entries, req.lastIncludedIndex)
  {
    InstallIs(x, req, covered);
  }

  /**
   Installing a snapshot that stands for what the node holds keeps every entry the node holds, and keeps
   storage in step with memory, exactly if the log does not reach beyond the snapshot.
   */
  lemma InstallKeepsLogIff(x: NodeState, req: SnapshotRequest, covered: seq<Entry>)
    requires Installs(x, req) && StandsFor(x, req, covered) && DiskInStep(x) && Indexed(x.log)
    requires NoConflict(x.log, covered, |covered|)
    ensures Agree(AfterInstall(x, req, covered).log, x.log, |x.log|) <==> |x.log| <= req.lastIncludedIndex
    ensures DiskInStep(AfterInstall(x, req, covered)) <==> |x.log| <= req.lastIncludedIndex
  {
    InstallReplacesLog(x, req, covered);
    AboveSnapshot(x.log, x.snapIndex, req.lastIncludedIndex);
  }

  lemma AboveSnapshot(log: seq<Entry>, lo: nat, k: nat)
    requires Indexed(log) && lo <= |log| && lo <= k
    ensures KeepAbove(log[lo..], k) == [] <==> |log| <= k
  {
    KeptAbove(log, lo, |log|, k);
    assert log[lo..|log|] == log[lo..];
  }

  function Caught(): NodeState {
    HandleAppendEntries(Restart(BLANK_DISK, []), AppendRequest(1, "a", 0, 0, [FIRST, SECOND], 2)).0
  }

  lemma CaughtUp()
    ensures Caught().log == [FIRST, SECOND] && Caught().commitIndex == 2 && Caught().currentTerm == 1
    ensures Caught().snapIndex == 0 && Caught().transfer == Idle && Caught().votedFor == NO_NODE
  {
    var z := Restart(BLANK_DISK, []);
    assert z.log == [];
    assert Divergence([], 0, 0, [FIRST, SECOND], 1) == 1;
    assert Splice([], 0, 0, [FIRST, SECOND]) == [FIRST, SECOND];
  }

  /**
   A snapshot of FIRST that arrives after SECOND was confirmed and committed takes SECOND away again. The node
   then votes for a candidate that never had SECOND, which it would not have done before.
   */
  lemma LateSnapshotDropsEntries()
    ensures var x := Caught();
            var y := HandleInstallSnapshot(x, SnapshotRequest(1, "a", 1, 1, 0, [], true), [FIRST]).0;
            var call := VoteRequest(2, "c", 1, 1);
            && x.log == [FIRST, SECOND] && x.commitIndex == 2 && y.log == [FIRST] && y.commitIndex == 2
            && !HandleRequestVote(x, call).1.voteGranted && HandleRequestVote(y, call).1.voteGranted
  {
    CaughtUp();
    var x := Caught();
    var y := HandleInstallSnapshot(x, SnapshotRequest(1, "a", 1, 1, 0, [], true), [FIRST]).0;
    assert y.log == [FIRST];
    assert LastTerm(x.log) == 1 && LastTerm(y.log) == 1;
  }

  // ---------------------------------------------------------------- compaction does not show

  /** Where the request speaks about compacted entries, it agrees with them. */
  ghost predicate SpeaksTrue(log: seq<Entry>, snapIndex: nat, req: AppendRequest) {
    && (0 < req.prevLogIndex <= snapIndex && req.prevLogIndex <= |log|
        ==> TermAt(log, req.prevLogIndex) == req.prevLogTerm)
    && forall k: nat :: req.prevLogIndex <= k < snapIndex && k < Reach(req)
                    ==> Has(log, req.prevLogIndex, req.entries, k)
  }

  function Uncompacted(x: NodeState): NodeState { x.(snapIndex := 0) }

  lemma {:induction false} SameDivergence(log: seq<Entry>, snapIndex: nat, prev: nat, entries: seq<Entry>, i: nat)
    requires prev < i <= prev + |entries| + 1
    requires forall k: nat :: prev <= k < snapIndex && k < prev + |entries| ==> Has(log, prev, entries, k)
    ensures Divergence(log, snapIndex, prev, entries, i) == Divergence(log, 0, prev, entries, i)
    decreases prev + |entries| + 1 - i
  {
    if i <= prev + |entries| {
      SameDivergence(log, snapIndex, prev, entries, i + 1);
      if i <= snapIndex {
        assert Has(log, prev, entries, i - 1);
      }
    }
  }

  lemma {:induction false} RunStartClamped(x: NodeState, i: nat, term: nat)
    requires x.snapIndex < i <= |x.log|
    ensures RunStart(x, i, term) == Max(RunStart(Uncompacted(x), i, term), x.snapIndex + 1)
    decreases i
  {
    if i > 1 && TermAt(x.log, i - 1) == term {
      if i > x.snapIndex + 1 {
        RunStartClamped(x, i - 1, term);
      } else {
        RunStartBounds(Uncompacted(x), i - 1, term);
      }
    }
  }

  lemma SameSplice(disk: seq<Entry>, log: seq<Entry>, snapIndex: nat, prev: nat, entries: seq<Entry>)
    requires forall k: nat :: prev <= k < snapIndex && k < prev + |entries| ==> Has(log, prev, entries, k)
    ensures Splice(log, snapIndex, prev, entries) == Splice(log, 0, prev, entries)
    ensures Persist(disk, log, snapIndex, prev, entries) == Persist(disk, log, 0, prev, entries)
  {
    SameDivergence(log, snapIndex, prev, entries, prev + 1);
  }

  lemma SameAbsorption(x: NodeState, req: AppendRequest)
    requires SpeaksTrue(x.log, x.snapIndex, req)
    ensures AbsorbEntries(x, req) == AbsorbEntries(Uncompacted(x), req).(snapIndex := x.snapIndex)
  {
    SameSplice(x.disk.entries, x.log, x.snapIndex, req.prevLogIndex, req.entries);
  }

  /** The answer of an uncompacted node, its hint raised to the first index the compacted one still has. */
  function Raise(resp: AppendResponse, first: nat): AppendResponse {
    resp.(conflictIndex := Max(resp.conflictIndex, first))
  }

  lemma SameRejection(x: NodeState, req: AppendRequest)
    requires SpeaksTrue(x.log, x.snapIndex, req) && x.snapIndex <= |x.log| && !PrevMatches(x, req)
    ensures Rejection(x, req) == Raise(Rejection(Uncompacted(x), req), x.snapIndex + 1)
  {
    if req.prevLogIndex <= |x.log| {
      RunStartClamped(x, req.prevLogIndex, TermAt(x.log, req.prevLogIndex));
    }
  }

  ghost predicate HandledAlike(x: NodeState, req: AppendRequest) {
    var (a, ra) := HandleAppendEntries(x, req);
    var (b, rb) := HandleAppendEntries(Uncompacted(x), req);
    && a == b.(snapIndex := x.snapIndex)
    && ra == if rb.success || req.term < x.currentTerm then rb else Raise(rb, x.snapIndex + 1)
  }

  /**
   A node that compacted its log answers a request that agrees with the compacted entries as it would have
   without compacting: same log, same storage, same commit index, same deliveries, and the same answer, but
   that a rejection never points the leader at a compacted index.
   */
  lemma CompactionDoesNotShow(x: NodeState, req: AppendRequest)
    requires x.snapIndex <= |x.log| && (req.term >= x.currentTerm ==> SpeaksTrue(x.log, x.snapIndex, req))
    ensures HandledAlike(x, req)
  {
    if req.term >= x.currentTerm {
      var x1 := HearLeader(x, req.term, req.leaderId);
      assert HearLeader(Uncompacted(x), req.term, req.leaderId) == Uncompacted(x1);
      if PrevMatches(x1, req) {
        SameAbsorption(x1, req);
      } else {
        SameRejection(x1, req);
      }
    }
  }

  /** What the node knows to be committed, the leader of term t has. */
  ghost predicate LeaderHas(s: Cluster, n: NodeId, t: nat) {
    && n in s.nodes && t in s.core.termLog
    && Agree(s.nodes[n].log, s.core.termLog[t], s.nodes[n].commitIndex)
    && s.nodes[n].snapIndex <= s.nodes[n].commitIndex
  }

  lemma LeaderHasInTerm(s: Cluster, m: Message)
    requires Calm(s) && Settled(s) && MsgOk(s.core, m) && m.AppendCall? && m.append.term == s.nodes[m.dst].currentTerm
    ensures LeaderHas(s, m.dst, m.append.term)
  {
    CommittedWithLeader(s, m.dst);
  }

  lemma LeaderHasLater(s: Cluster, m: Message)
    requires Good(s) && MsgOk(s.core, m) && m.AppendCall? && m.append.term > s.nodes[m.dst].currentTerm
    ensures LeaderHas(s, m.dst, m.append.term)
  {
    RaisedReady(s, m);
    LeaderHasInTerm(Raised(s, m.dst, m.append.term), m);
  }

  lemma LeaderHasCommitted(s: Cluster, m: Message)
    requires Good(s) && m in s.net && m.AppendCall? && m.dst in s.nodes && m.append.term >= s.nodes[m.dst].currentTerm
    ensures LeaderHas(s, m.dst, m.append.term)
  {
    assert MsgOk(s.core, m);
    if m.append.term > s.nodes[m.dst].currentTerm {
      LeaderHasLater(s, m);
    } else {
      GoodParts(s);
      LeaderHasInTerm(s, m);
    }
  }

  lemma SpeaksForLeader(c: Core, x: NodeState, leader: NodeId, req: AppendRequest)
    requires AppendOk(c, leader, req) && x.snapIndex <= x.commitIndex
    requires Agree(x.log, c.termLog[req.term], x.commitIndex)
    ensures SpeaksTrue(x.log, x.snapIndex, req)
  {
    var log := c.termLog[req.term];
    forall k: nat | req.prevLogIndex <= k < x.snapIndex && k < Reach(req)
      ensures Has(x.log, req.prevLogIndex, req.entries, k)
    {
      assert req.entries[k - req.prevLogIndex] == log[req.prevLogIndex + (k - req.prevLogIndex)];
    }
  }

  /** In every run, whatever request arrives whenever: compaction does not show in how it is handled. */
  lemma CompactionNeverShows(run: seq<Cluster>, i: nat, m: Message)
    requires IsRun(run) && i < |run| && m in run[i].net && m.AppendCall? && m.dst in run[i].nodes
    ensures HandledAlike(run[i].nodes[m.dst], m.append)
  {
    RunIsGood(run, i);
    NodeFacts(run[i], m.dst);
    if m.append.term >= run[i].nodes[m.dst].currentTerm {
      LeaderHasCommitted(run[i], m);
      assert MsgOk(run[i].core, m);
      SpeaksForLeader(run[i].core, run[i].nodes[m.dst], m.src, m.append);
    }
    CompactionDoesNotShow(run[i].nodes[m.dst], m.append);
  }

  // ---------------------------------------------------------------- looking for a common entry

  /** What leader y sends to a peer whose next index it takes to be `next`. */
  function Attempt(cfg: Config, y: NodeState, peer: NodeId, next: nat): AppendRequest
    requires next > y.snapIndex
  {
    BuildAppend(cfg, y.(nextIndex := y.nextIndex[peer := next]), peer)
  }

  function Accepts(cfg: Config, y: NodeState, x: NodeState, peer: NodeId, next: nat): bool
    requires next > y.snapIndex
  {
    HandleAppendEntries(x, Attempt(cfg, y, peer, next)).1.success
  }

  function Retry(cfg: Config, y: NodeState, x: NodeState, peer: NodeId, next: nat): (next': nat)
    requires next > y.snapIndex
    ensures next' > y.snapIndex
  {
    Backtrack(y, HandleAppendEntries(x, Attempt(cfg, y, peer, next)).1)
  }

  /** The negotiation from `next` ends with an acceptance after at most k rejections. */
  predicate AcceptedWithin(cfg: Config, y: NodeState, x: NodeState, peer: NodeId, next: nat, k: nat)
    requires next > y.snapIndex
    decreases k
  {
    Accepts(cfg, y, x, peer, next) || (k > 0 && AcceptedWithin(cfg, y, x, peer, Retry(cfg, y, x, peer, next), k - 1))
  }

  /** Leader and follower of one term, with logs that match wherever their terms do. */
  ghost predicate Pair(termLog: map<nat, seq<Entry>>, y: NodeState, x: NodeState) {
    && x.currentTerm == y.currentTerm && x.snapIndex <= |x.log| && y.snapIndex <= |y.log|
    && Coherent(termLog, y.log) && Coherent(termLog, x.log)
  }

  lemma {:induction false} LastOfTermMeaning(y: NodeState, i: nat, term: nat)
    requires i <= |y.log|
    ensures var k := LastOfTerm(y, i, term); k > 0 ==> y.snapIndex < k && TermAt(y.log, k) == term
  {
    if i > y.snapIndex && TermAt(y.log, i) != term {
      LastOfTermMeaning(y, i - 1, term);
    }
  }

  /** Log matching: the leader cannot have an entry of the conflicting term at or above the conflict. */
  lemma ConflictTermLiesBelow(termLog: map<nat, seq<Entry>>, y: NodeState, x: NodeState, prev: nat)
    requires Pair(termLog, y, x) && 0 < prev <= |x.log| && prev <= |y.log|
    requires TermAt(x.log, prev) != TermAt(y.log, prev)
    ensures LastOfTerm(y, |y.log|, TermAt(x.log, prev)) < prev
  {
    var t := TermAt(x.log, prev);
    var k := LastOfTerm(y, |y.log|, t);
    LastOfTermMeaning(y, |y.log|, t);
    if k > 0 {
      assert CoherentAt(termLog, y.log, k - 1) && CoherentAt(termLog, x.log, prev - 1);
    }
  }

  lemma AttemptIs(cfg: Config, y: NodeState, peer: NodeId, next: nat)
    requires y.snapIndex < next <= |y.log| + 1
    ensures var req := Attempt(cfg, y, peer, next);
            && req.term == y.currentTerm && req.prevLogIndex == next - 1
            && (next > 1 ==> req.prevLogTerm == TermAt(y.log, next - 1))
  {
  }

  /** Every rejection lowers the next index, down to the first the leader still has. */
  lemma RejectionLowersNext(cfg: Config, termLog: map<nat, seq<Entry>>, y: NodeState, x: NodeState, peer: NodeId,
                            next: nat)
    requires Pair(termLog, y, x) && y.snapIndex < next <= |y.log| + 1 && !Accepts(cfg, y, x, peer, next)
    ensures 1 < next && Retry(cfg, y, x, peer, next) <= Max(next - 1, y.snapIndex + 1)
  {
    var req := Attempt(cfg, y, peer, next);
    AttemptIs(cfg, y, peer, next);
    AppendCases(x, req);
    var resp := HandleAppendEntries(x, req).1;
    if resp.conflictTerm > 0 {
      assert resp.conflictTerm == TermAt(x.log, next - 1);
      ConflictTermLiesBelow(termLog, y, x, next - 1);
    }
  }

  /** If the follower has the end of the leader's snapshot, it accepts within next - 1 retries. */
  lemma {:induction false} RollbackEnds(cfg: Config, termLog: map<nat, seq<Entry>>, y: NodeState, x: NodeState,
                                        peer: NodeId, next: nat)
    requires Pair(termLog, y, x) && y.snapIndex < next <= |y.log| + 1 && HoldsSnapshotEnd(y, x)
    ensures AcceptedWithin(cfg, y, x, peer, next, next - 1)
    decreases next
  {
    FirstAttempt(cfg, y, x, peer);
    if next > y.snapIndex + 1 && !Accepts(cfg, y, x, peer, next) {
      RejectionLowersNext(cfg, termLog, y, x, peer, next);
      RollbackEnds(cfg, termLog, y, x, peer, Retry(cfg, y, x, peer, next));
      AcceptedAfterRetry(cfg, y, x, peer, next, Retry(cfg, y, x, peer, next));
    }
  }

  lemma AcceptedAfterRetry(cfg: Config, y: NodeState, x: NodeState, peer: NodeId, next: nat, next': nat)
    requires y.snapIndex < next' < next && next' == Retry(cfg, y, x, peer, next)
    requires AcceptedWithin(cfg, y, x, peer, next', next' - 1)
    ensures AcceptedWithin(cfg, y, x, peer, next, next - 1)
  {
    AcceptedLater(cfg, y, x, peer, next', next' - 1, next - 2);
  }

  lemma {:induction false} AcceptedLater(cfg: Config, y: NodeState, x: NodeState, peer: NodeId, next: nat, k: nat,
                                         k': nat)
    requires next > y.snapIndex && AcceptedWithin(cfg, y, x, peer, next, k) && k <= k'
    ensures AcceptedWithin(cfg, y, x, peer, next, k')
    decreases k
  {
    if !Accepts(cfg, y, x, peer, next) {
      AcceptedLater(cfg, y, x, peer, Retry(cfg, y, x, peer, next), k - 1, k' - 1);
    }
  }

  lemma StuckRetry(cfg: Config, termLog: map<nat, seq<Entry>>, y: NodeState, x: NodeState, peer: NodeId, next: nat)
    requires Pair(termLog, y, x) && next == y.snapIndex + 1 && !Accepts(cfg, y, x, peer, next)
    ensures Retry(cfg, y, x, peer, next) == next
  {
    RejectionLowersNext(cfg, termLog, y, x, peer, next);
  }

  lemma {:induction false} RetryForEver(cfg: Config, y: NodeState, x: NodeState, peer: NodeId, next: nat, k: nat)
    requires next > y.snapIndex && !Accepts(cfg, y, x, peer, next) && Retry(cfg, y, x, peer, next) == next
    ensures !AcceptedWithin(cfg, y, x, peer, next, k)
    decreases k
  {
    if k > 0 {
      RetryForEver(cfg, y, x, peer, next, k - 1);
    }
  }

  /** If not, every try ends at that first attempt, and it is repeated without end. */
  lemma RollbackLoops(cfg: Config, termLog: map<nat, seq<Entry>>, y: NodeState, x: NodeState, peer: NodeId, k: nat)
    requires Pair(termLog, y, x) && !Accepts(cfg, y, x, peer, y.snapIndex + 1)
    ensures !AcceptedWithin(cfg, y, x, peer, y.snapIndex + 1, k)
  {
    StuckRetry(cfg, termLog, y, x, peer, y.snapIndex + 1);
    RetryForEver(cfg, y, x, peer, y.snapIndex + 1, k);
  }

  /**
   The search for a common entry ends from every next index exactly if the follower has the entry the leader's
   snapshot ends with, or a snapshot reaching beyond it. A leader without a snapshot always gets there.
   */
  lemma RollbackEndsIff(cfg: Config, termLog: map<nat, seq<Entry>>, y: NodeState, x: NodeState, peer: NodeId)
    requires Pair(termLog, y, x)
    ensures (forall next: nat :: y.snapIndex < next <= |y.log| + 1 ==> Ends(cfg, y, x, peer, next))
       <==> HoldsSnapshotEnd(y, x)
    ensures y.snapIndex == 0 ==> HoldsSnapshotEnd(y, x)
  {
    FirstAttempt(cfg, y, x, peer);
    if HoldsSnapshotEnd(y, x) {
      forall next: nat | y.snapIndex < next <= |y.log| + 1 ensures Ends(cfg, y, x, peer, next) {
        RollbackEnds(cfg, termLog, y, x, peer, next);
      }
    } else {
      NeverEnds(cfg, termLog, y, x, peer);
    }
  }

  lemma RunPair(run: seq<Cluster>, i: nat, n: NodeId, peer: NodeId)
    requires IsRun(run) && i < |run| && n in run[i].nodes && peer in run[i].nodes
    requires run[i].nodes[n].currentTerm == run[i].nodes[peer].currentTerm
    ensures Pair(run[i].core.termLog, run[i].nodes[n], run[i].nodes[peer])
  {
    RunIsGood(run, i);
    NodeFacts(run[i], n);
    NodeFacts(run[i], peer);
    GrowsReflexive(run[i].core);
    LogIsCoherent(run, i, run[i].core, n);
    LogIsCoherent(run, i, run[i].core, peer);
  }

  /**
   In every state of every run: a leader and any follower of its term find a common entry exactly under that
   condition.
   */
  lemma RollbackEndsInRunIff(run: seq<Cluster>, i: nat, n: NodeId, peer: NodeId)
    requires IsRun(run) && i < |run| && n in run[i].nodes && peer in run[i].nodes && peer != n
    requires run[i].nodes[n].role == Leader && run[i].nodes[n].currentTerm == run[i].nodes[peer].currentTerm
    ensures var y, x := run[i].nodes[n], run[i].nodes[peer];
            && y.snapIndex <= |y.log|
            && ((forall next: nat :: y.snapIndex < next <= |y.log| + 1 ==> Ends(Cfg(run[i], n), y, x, peer, next))
                <==> HoldsSnapshotEnd(y, x))
  {
    RunPair(run, i, n, peer);
    RollbackEndsIff(Cfg(run[i], n), run[i].core.termLog, run[i].nodes[n], run[i].nodes[peer], peer);
  }

  /** The negotiation from `next` ends with an acceptance. */
  ghost predicate Ends(cfg: Config, y: NodeState, x: NodeState, peer: NodeId, next: nat)
    requires next > y.snapIndex
  {
    exists k: nat :: AcceptedWithin(cfg, y, x, peer, next, k)
  }

  lemma NeverEnds(cfg: Config, termLog: map<nat, seq<Entry>>, y: NodeState, x: NodeState, peer: NodeId)
    requires Pair(termLog, y, x) && !Accepts(cfg, y, x, peer, y.snapIndex + 1)
    ensures !Ends(cfg, y, x, peer, y.snapIndex + 1)
  {
    if Ends(cfg, y, x, peer, y.snapIndex + 1) {
      var k: nat :| AcceptedWithin(cfg, y, x, peer, y.snapIndex + 1, k);
      RollbackLoops(cfg, termLog, y, x, peer, k);
    }
  }

  predicate HoldsSnapshotEnd(y: NodeState, x: NodeState)
    requires y.snapIndex <= |y.log|
  {
    || y.snapIndex == 0
    || (y.snapIndex <= |x.log|
        && (x.snapIndex <= y.snapIndex ==> TermAt(x.log, y.snapIndex) == TermAt(y.log, y.snapIndex)))
  }

  lemma FirstAttempt(cfg: Config, y: NodeState, x: NodeState, peer: NodeId)
    requires x.currentTerm == y.currentTerm && y.snapIndex <= |y.log|
    ensures Accepts(cfg, y, x, peer, y.snapIndex + 1) <==> HoldsSnapshotEnd(y, x)
  {
    var req := Attempt(cfg, y, peer, y.snapIndex + 1);
    AttemptIs(cfg, y, peer, y.snapIndex + 1);
    AppendCases(x, req);
  }

  /** A leader that compacted its one entry and a follower that lost its log never come together. */
  lemma EmptyFollowerIsStuck(k: nat)
    ensures var e := Entry(1, 1, []);
            var leader := Restart(BLANK_DISK, []).(currentTerm := 1, role := Leader, log := [e]);
            var y := CompactLog(AdvanceCommitTo(leader, 1), [], 1, 1);
            var x := Restart(BLANK_DISK, []).(currentTerm := 1);
            y.snapIndex == 1 && !AcceptedWithin(Config("a", {"b"}), y, x, "b", 2, k)
  {
    var e := Entry(1, 1, []);
    var leader := Restart(BLANK_DISK, []).(currentTerm := 1, role := Leader, log := [e]);
    var y := CompactLog(AdvanceCommitTo(leader, 1), [], 1, 1);
    var x := Restart(BLANK_DISK, []).(currentTerm := 1);
    assert x.log == [] && y.log == [e];
    FirstAttempt(Config("a", {"b"}), y, x, "b");
    RollbackLoops(Config("a", {"b"}), map[1 := [e]], y, x, "b", k);
  }
}
