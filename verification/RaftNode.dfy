/**
 A node as the program keeps it: fields updated in place, and only the tail of the log in memory, behind a
 sentinel. Every handler is proved to do to the abstract state what RaftSpec says, so a compacted node
 behaves like one that still had its whole log.
 */
module RaftNode {

  import opened Wrappers
  import opened Bytes
  import opened RaftTypes
  import opened RaftSpec
  import opened RaftCluster
  import opened RaftFollowerSteps

  // ---------------------------------------------------------------- storage

  /** The in-memory PersistentState. */
  class MemState {
    var term: nat
    var voted: NodeId
    var entries: seq<Entry>
    var snapshot: Bytes
    var lastIncludedIndex: nat
    var lastIncludedTerm: nat

    constructor ()
      ensures Contents() == BLANK_DISK
    {
      term, voted, entries, snapshot, lastIncludedIndex, lastIncludedTerm := 0, NO_NODE, [], [], 0, 0;
    }

    ghost function Contents(): Disk
      reads this
    {
      Disk(term, voted, entries, snapshot, lastIncludedIndex, lastIncludedTerm)
    }

    method SaveHardState(t: nat, votedFor: NodeId)
      modifies this
      ensures Contents() == old(Contents()).(term := t, votedFor := votedFor)
    {
      term, voted := t, votedFor;
    }

    method AppendEntries(es: seq<Entry>)
      modifies this
      ensures Contents() == old(Contents()).(entries := old(entries) + es)
    {
      entries := entries + es;
    }

    method TruncateSuffix(keepIndex: nat)
      modifies this
      ensures Contents() == old(Contents()).(entries := KeepUpTo(old(entries), keepIndex))
    {
      var keep: seq<Entry> := [];
      var i := 0;
      while i < |entries|
        invariant 0 <= i <= |entries| && Contents() == old(Contents())
        invariant keep == KeepUpTo(entries[..i], keepIndex)
      {
        assert entries[..i + 1][..i] == entries[..i];
        if entries[i].index <= keepIndex {
          keep := keep + [entries[i]];
        }
        i := i + 1;
      }
      assert entries[..i] == entries;
      entries := keep;
    }

    method TruncatePrefix(discardIndex: nat)
      modifies this
      ensures Contents() == old(Contents()).(entries := KeepAbove(old(entries), discardIndex))
    {
      var keep: seq<Entry> := [];
      var i := 0;
      while i < |entries|
        invariant 0 <= i <= |entries| && Contents() == old(Contents())
        invariant keep == KeepAbove(entries[..i], discardIndex)
      {
        assert entries[..i + 1][..i] == entries[..i];
        if entries[i].index > discardIndex {
          keep := keep + [entries[i]];
        }
        i := i + 1;
      }
      assert entries[..i] == entries;
      entries := keep;
    }

    method SaveSnapshot(data: Bytes, index: nat, t: nat)
      modifies this
      ensures Contents() == old(Contents()).(snapshot := data, snapIndex := index, snapTerm := t)
    {
      snapshot, lastIncludedIndex, lastIncludedTerm := data, index, t;
    }
  }

  // ---------------------------------------------------------------- the node

  ghost predicate Filled(m: map<NodeId, nat>, ks: set<NodeId>, v: nat, m': map<NodeId, nat>) {
    && m'.Keys == m.Keys + ks
    && forall p :: p in m' ==> m'[p] == if p in ks then v else m[p]
  }

  lemma FilledIsFill(m: map<NodeId, nat>, ks: set<NodeId>, v: nat, m': map<NodeId, nat>)
    requires Filled(m, ks, v, m')
    ensures m' == Fill(m, ks, v)
  {
  }

  lemma FilledStep(m: map<NodeId, nat>, ks: set<NodeId>, v: nat, m': map<NodeId, nat>, p: NodeId)
    requires Filled(m, ks, v, m')
    ensures Filled(m, ks + {p}, v, m'[p := v])
  {
  }

  /** Per-peer tracking of a new leader. */
  method ResetPeers(next: map<NodeId, nat>, acked: map<NodeId, nat>, peers: set<NodeId>, nextIdx: nat)
    returns (next': map<NodeId, nat>, acked': map<NodeId, nat>)
    ensures next' == Fill(next, peers, nextIdx) && acked' == Fill(acked, peers, 0)
  {
    next', acked' := next, acked;
    var rest, done := peers, {};
    while rest != {}
      invariant rest + done == peers
      invariant Filled(next, done, nextIdx, next') && Filled(acked, done, 0, acked')
      decreases rest
    {
      var p :| p in rest;
      FilledStep(next, done, nextIdx, next', p);
      FilledStep(acked, done, 0, acked', p);
      next', acked' := next'[p := nextIdx], acked'[p := 0];
      rest, done := rest - {p}, done + {p};
    }
    FilledIsFill(next, peers, nextIdx, next');
    FilledIsFill(acked, peers, 0, acked');
  }

  /** The entry does not go into the log: it is compacted away, or the log has it already. */
  ghost predicate Skips(log: seq<Entry>, snapIndex: nat, idx: nat, e: Entry) {
    0 < idx <= snapIndex || (0 < idx <= |log| && log[idx - 1].term == e.term)
  }

  ghost function LogWith(log: seq<Entry>, snapIndex: nat, idx: nat, e: Entry): seq<Entry> {
    if Skips(log, snapIndex, idx, e) || !(0 < idx <= |log| + 1) then log else log[..idx - 1] + [e]
  }

  ghost function DiskWith(disk: seq<Entry>, log: seq<Entry>, snapIndex: nat, idx: nat, e: Entry): seq<Entry> {
    if Skips(log, snapIndex, idx, e) || !(0 < idx <= |log|) then disk else KeepUpTo(disk, idx - 1)
  }

  /** Log and storage after the first i entries of the request. */
  ghost function After(log: seq<Entry>, disk: seq<Entry>, snapIndex: nat, prev: nat, entries: seq<Entry>, i: nat)
    : (seq<Entry>, seq<Entry>)
    requires i <= |entries|
  {
    if i == 0 then (log, disk) else
    var (l, d) := After(log, disk, snapIndex, prev, entries, i - 1);
    (LogWith(l, snapIndex, prev + i, entries[i - 1]), DiskWith(d, l, snapIndex, prev + i, entries[i - 1]))
  }

  lemma {:induction false} AfterBeforeDivergence(log: seq<Entry>, disk: seq<Entry>, snapIndex: nat, prev: nat,
                                                 entries: seq<Entry>, i: nat)
    requires i <= |entries| && prev + i < Divergence(log, snapIndex, prev, entries, prev + 1)
    ensures After(log, disk, snapIndex, prev, entries, i) == (log, disk)
    ensures Divergence(log, snapIndex, prev, entries, prev + i + 1)
         == Divergence(log, snapIndex, prev, entries, prev + 1)
  {
    if i > 0 {
      AfterBeforeDivergence(log, disk, snapIndex, prev, entries, i - 1);
    }
  }

  lemma NotSkipped(log: seq<Entry>, snapIndex: nat, prev: nat, entries: seq<Entry>, d: nat)
    requires d == Divergence(log, snapIndex, prev, entries, prev + 1) && d <= prev + |entries|
    ensures !Skips(log, snapIndex, d, entries[d - 1 - prev])
  {
    DivergenceMeaning(log, snapIndex, prev, entries, prev + 1);
  }

  /** The first entry the log does not have goes behind what it shares with the request. */
  lemma AtDivergence(log: seq<Entry>, disk: seq<Entry>, snapIndex: nat, prev: nat, entries: seq<Entry>, d: nat)
    requires prev <= |log| && snapIndex <= |log|
    requires d == Divergence(log, snapIndex, prev, entries, prev + 1) && d <= prev + |entries|
    ensures d <= |log| + 1
    ensures After(log, disk, snapIndex, prev, entries, d - prev)
         == (log[..d - 1] + [entries[d - 1 - prev]], Cut(disk, log, snapIndex, prev, entries))
  {
    DivergenceInReach(log, snapIndex, prev, entries);
    NotSkipped(log, snapIndex, prev, entries, d);
    AfterBeforeDivergence(log, disk, snapIndex, prev, entries, d - 1 - prev);
  }

  lemma {:induction false} AfterDivergence(log: seq<Entry>, disk: seq<Entry>, snapIndex: nat, prev: nat,
                                           entries: seq<Entry>, i: nat)
    requires prev <= |log| && snapIndex <= |log| && i <= |entries|
    requires prev + i >= Divergence(log, snapIndex, prev, entries, prev + 1)
    ensures var d := Divergence(log, snapIndex, prev, entries, prev + 1);
            && snapIndex < d <= |log| + 1
            && After(log, disk, snapIndex, prev, entries, i)
                 == (log[..d - 1] + entries[d - 1 - prev..i], Cut(disk, log, snapIndex, prev, entries))
  {
    var d := Divergence(log, snapIndex, prev, entries, prev + 1);
    if prev + i == d {
      AtDivergence(log, disk, snapIndex, prev, entries, d);
      DivergenceMeaning(log, snapIndex, prev, entries, prev + 1);
      assert [entries[i - 1]] == entries[d - 1 - prev..i];
    } else {
      AfterDivergence(log, disk, snapIndex, prev, entries, i - 1);
      PastEnd(log[..d - 1] + entries[d - 1 - prev..i - 1], Cut(disk, log, snapIndex, prev, entries), snapIndex,
              prev + i, entries[i - 1]);
      OneMore(log[..d - 1], entries, d - 1 - prev, i - 1);
    }
  }

  lemma PastEnd(log: seq<Entry>, disk: seq<Entry>, snapIndex: nat, idx: nat, e: Entry)
    requires |log| + 1 == idx > snapIndex
    ensures LogWith(log, snapIndex, idx, e) == log + [e] && DiskWith(disk, log, snapIndex, idx, e) == disk
  {
    assert log[..idx - 1] == log;
  }

  /** The entry by entry loop brings about the splice. */
  lemma AfterAll(log: seq<Entry>, disk: seq<Entry>, snapIndex: nat, prev: nat, entries: seq<Entry>)
    requires prev <= |log| && snapIndex <= |log|
    ensures After(log, disk, snapIndex, prev, entries, |entries|)
              == (Splice(log, snapIndex, prev, entries), Cut(disk, log, snapIndex, prev, entries))
  {
    var d := Divergence(log, snapIndex, prev, entries, prev + 1);
    if prev + |entries| < d {
      AfterBeforeDivergence(log, disk, snapIndex, prev, entries, |entries|);
    } else {
      AfterDivergence(log, disk, snapIndex, prev, entries, |entries|);
      assert entries[d - 1 - prev..|entries|] == entries[d - 1 - prev..];
    }
  }

  lemma AfterInReach(log: seq<Entry>, disk: seq<Entry>, snapIndex: nat, prev: nat, entries: seq<Entry>, i: nat)
    requires prev <= |log| && snapIndex <= |log| && i < |entries|
    ensures prev + i <= |After(log, disk, snapIndex, prev, entries, i).0|
  {
    DivergenceInReach(log, snapIndex, prev, entries);
    if prev + i < Divergence(log, snapIndex, prev, entries, prev + 1) {
      AfterBeforeDivergence(log, disk, snapIndex, prev, entries, i);
    } else {
      AfterDivergence(log, disk, snapIndex, prev, entries, i);
    }
  }

  lemma OneMore(start: seq<Entry>, entries: seq<Entry>, k: nat, i: nat)
    requires k <= i < |entries|
    ensures start + entries[k..i] + [entries[i]] == start + entries[k..i + 1]
  {
  }

  /** The log in memory is the end of the full log; the sentinel stands for the last entry compacted away. */
  ghost predicate Behind(full: seq<Entry>, snapIndex: nat, log: seq<Entry>) {
    snapIndex <= |full| && |log| >= 1 && log[1..] == full[snapIndex..] && log[0].term == TermAt(full, snapIndex)
  }

  /** Cutting both logs before the same index and putting the same entry there. */
  lemma BehindWith(full: seq<Entry>, snapIndex: nat, log: seq<Entry>, idx: nat, e: Entry)
    requires Behind(full, snapIndex, log) && snapIndex < idx <= |full| + 1
    ensures idx - snapIndex <= |log|
    ensures Behind(full[..idx - 1] + [e], snapIndex, log[..idx - snapIndex] + [e])
    ensures idx == |full| + 1 ==> log[..idx - snapIndex] == log
  {
    var log', full' := log[..idx - snapIndex] + [e], full[..idx - 1] + [e];
    assert |log| - 1 == |full| - snapIndex;
    forall j | 0 <= j < |log'| - 1 ensures log'[1..][j] == full'[snapIndex..][j] {
      if j < idx - 1 - snapIndex {
        assert log[1..][j] == full[snapIndex..][j];
      }
    }
  }

  class Node {
    const id: NodeId
    const peers: set<NodeId>
    const storage: MemState

    var currentTerm: nat
    var votedFor: NodeId
    var log: seq<Entry>              // log[0] is the sentinel
    var lastIncludedIndex: nat
    var lastIncludedTerm: nat

    var role: Role
    var leaderID: NodeId
    var commitIndex: nat
    var votes: set<NodeId>           // whose votes the current election has counted
    var recvSnapshot: Transfer
    var nextIndex: map<NodeId, nat>
    var matchIndex: map<NodeId, nat>
    var applyCh: seq<ApplyMsg>

    ghost var full: seq<Entry>       // with the entries compacted away
    ghost var base: nat

    ghost predicate Valid()
      reads this
    {
      Behind(full, lastIncludedIndex, log) && lastIncludedIndex <= commitIndex
    }

    ghost function State(): NodeState
      reads this, storage
    {
      NodeState(currentTerm, votedFor, full, lastIncludedIndex, lastIncludedTerm, role, leaderID, commitIndex,
                votes, nextIndex, matchIndex, recvSnapshot, storage.Contents(), base, applyCh)
    }

    ghost function Cfg(): Config { Config(id, peers) }

    /** Start: the node takes up what storage holds. `covered` is what the stored snapshot stands for. */
    constructor (id: NodeId, peers: set<NodeId>, storage: MemState, ghost covered: seq<Entry>)
      ensures Valid() && this.id == id && this.peers == peers && this.storage == storage
      ensures storage.Contents() == old(storage.Contents())
      ensures State() == Restart(storage.Contents(), covered)
    {
      this.id, this.peers, this.storage := id, peers, storage;
      currentTerm, votedFor := storage.term, storage.voted;
      if storage.lastIncludedIndex > 0 {
        lastIncludedIndex, lastIncludedTerm := storage.lastIncludedIndex, storage.lastIncludedTerm;
        log := [Entry(storage.lastIncludedIndex, storage.lastIncludedTerm, [])] + storage.entries;
        commitIndex := storage.lastIncludedIndex;
      } else {
        lastIncludedIndex, lastIncludedTerm := 0, 0;
        log := [Entry(0, 0, [])] + storage.entries;
        commitIndex := 0;
      }
      role, leaderID, votes, recvSnapshot := Follower, NO_NODE, {}, Idle;
      nextIndex, matchIndex, applyCh := map[], map[], [];
      full := SnapshotLog(covered, storage.lastIncludedIndex, storage.lastIncludedTerm) + storage.entries;
      base := storage.lastIncludedIndex;
    }

    // -------------------------------------------------------------- looking at the log

    /** Where an index is in memory; it is there exactly if it is neither compacted away nor beyond the log. */
    function LogPos(index: nat): (r: (nat, bool))
      requires Valid()
      reads this
      ensures r.1 <==> lastIncludedIndex <= index <= |full|
      ensures r.1 ==> r.0 < |log| && log[r.0].term == TermAt(full, index)
      ensures r.1 && index > lastIncludedIndex ==> r.0 >= 1 && log[r.0] == full[index - 1]
    {
      if index < lastIncludedIndex then (0, false)
      else
        var pos := index - lastIncludedIndex;
        if pos >= |log| then (0, false) else (pos, true)
    }

    function LastLogIndex(): (r: nat)
      requires Valid()
      reads this
      ensures r == |full|
    {
      lastIncludedIndex + |log| - 1
    }

    function LastLogTerm(): (r: nat)
      requires Valid()
      reads this
      ensures r == LastTerm(full)
    {
      log[|log| - 1].term
    }

    function Quorum(): (r: nat)
      ensures r == Cfg().Quorum()
    {
      var total := 1 + |peers|;
      total / 2 + 1
    }

    predicate CandidateLogUpToDate(candLastIndex: nat, candLastTerm: nat)
      requires Valid()
      reads this
      ensures CandidateLogUpToDate(candLastIndex, candLastTerm) <==> UpToDate(candLastIndex, candLastTerm, full)
    {
      var myLastTerm := LastLogTerm();
      if candLastTerm != myLastTerm then candLastTerm > myLastTerm else candLastIndex >= LastLogIndex()
    }

    // -------------------------------------------------------------- elections

    method BecomeFollower(term: nat)
      requires Valid()
      modifies this, storage
      ensures Valid() && State() == RaftSpec.BecomeFollower(old(State()), term)
    {
      role := Follower;
      leaderID := NO_NODE;
      if term > currentTerm {
        currentTerm, votedFor := term, NO_NODE;
        storage.SaveHardState(currentTerm, votedFor);
      }
    }

    method BecomeLeader()
      requires Valid()
      modifies this
      ensures Valid() && State() == RaftSpec.BecomeLeader(Cfg(), old(State()))
    {
      var nextIdx := LastLogIndex() + 1;
      assert nextIdx == NextSlot(full);
      var next, acked := ResetPeers(nextIndex, matchIndex, peers, nextIdx);
      role, leaderID, nextIndex, matchIndex := Leader, id, next, acked;
    }

    method Stand()
      requires Valid()
      modifies this, storage
      ensures Valid() && State() == Standing(Cfg(), old(State()))
    {
      currentTerm, role, votedFor, votes := currentTerm + 1, Candidate, id, {id};
      storage.SaveHardState(currentTerm, votedFor);
    }

    /** The election timer fired on a node that is not leader; `call` is what it asks its peers. */
    method StartElection() returns (call: VoteRequest)
      requires Valid()
      modifies this, storage
      ensures Valid() && State() == RaftSpec.StartElection(Cfg(), old(State()))
      ensures call == BuildVoteRequest(Cfg(), State())
    {
      Stand();
      call := VoteRequest(currentTerm, id, LastLogIndex(), LastLogTerm());
      if 1 >= Quorum() {
        BecomeLeader();
      }
    }

    method HandleVoteResponse(peer: NodeId, req: VoteRequest, resp: VoteResponse)
      requires Valid()
      modifies this, storage
      ensures Valid() && State() == RaftSpec.HandleVoteResponse(Cfg(), old(State()), peer, req, resp)
    {
      if resp.term > currentTerm {
        BecomeFollower(resp.term);
        return;
      }
      if resp.voteGranted && role == Candidate && currentTerm == req.term {
        votes := votes + {peer};
        if |votes| >= Quorum() {
          BecomeLeader();
        }
      }
    }

    method HandleRequestVote(req: VoteRequest) returns (resp: VoteResponse)
      requires Valid()
      modifies this, storage
      ensures Valid() && (State(), resp) == RaftSpec.HandleRequestVote(old(State()), req)
    {
      resp := VoteResponse(currentTerm, false);
      if req.term < currentTerm {
        return;
      }
      if req.term > currentTerm {
        BecomeFollower(req.term);
        resp := VoteResponse(currentTerm, false);
      }
      var alreadyVoted := votedFor != NO_NODE && votedFor != req.candidateId;
      if alreadyVoted || !CandidateLogUpToDate(req.lastLogIndex, req.lastLogTerm) {
        return;
      }
      votedFor := req.candidateId;
      storage.SaveHardState(currentTerm, votedFor);
      resp := resp.(voteGranted := true);
    }
    // -------------------------------------------------------------- replication, follower side

    method HearLeader(term: nat, leaderId: NodeId)
      requires Valid()
      modifies this, storage
      ensures Valid() && State() == RaftSpec.HearLeader(old(State()), term, leaderId)
    {
      if term > currentTerm {
        BecomeFollower(term);
      } else {
        role := Follower;
      }
      leaderID := leaderId;
    }

    /** The first index of the conflicting term's run, for fast rollback. */
    method FirstOfRun(index: nat, term: nat) returns (first: nat)
      requires Valid() && 0 < index <= |full|
      ensures first == RunStart(State(), index, term)
    {
      first := index;
      while first > lastIncludedIndex + 1
        invariant 0 < first <= index
        invariant RunStart(State(), first, term) == RunStart(State(), index, term)
      {
        var (p, ok) := LogPos(first - 1);
        if !ok || log[p].term != term {
          return;
        }
        first := first - 1;
      }
    }

    /** The log consistency check. */
    method CheckPrev(req: AppendRequest) returns (ok: bool, resp: AppendResponse)
      requires Valid()
      ensures ok <==> PrevMatches(State(), req)
      ensures !ok ==> resp == Rejection(State(), req)
    {
      ok, resp := true, AppendResponse(currentTerm, false, 0, 0, 0);
      if req.prevLogIndex > 0 {
        if req.prevLogIndex > LastLogIndex() {
          return false, resp.(conflictIndex := LastLogIndex() + 1);
        }
        var (pos, seen) := LogPos(req.prevLogIndex);
        if seen && log[pos].term != req.prevLogTerm {
          var first := FirstOfRun(req.prevLogIndex, log[pos].term);
          return false, resp.(conflictTerm := log[pos].term, conflictIndex := first);
        }
      }
    }

    method AppendOne(idx: nat, e: Entry)
      requires Valid() && 0 < idx <= |full| + 1
      modifies this`log, this`full, storage
      ensures Valid() && full == LogWith(old(full), lastIncludedIndex, idx, e)
      ensures storage.Contents() == old(storage.Contents()).(
                entries := DiskWith(old(storage.entries), old(full), lastIncludedIndex, idx, e))
    {
      if idx <= lastIncludedIndex {
        return;
      }
      BehindWith(full, lastIncludedIndex, log, idx, e);
      var (pos, ok) := LogPos(idx);
      if ok {
        if log[pos].term == e.term {
          return;
        }
        log := log[..pos];
        storage.TruncateSuffix(idx - 1);
      }
      log := log + [e];
      full := full[..idx - 1] + [e];
    }

    /** Appends what is new, cutting off a conflicting tail first, in memory and in storage. */
    method AppendNew(prev: nat, entries: seq<Entry>)
      requires Valid() && prev <= |full|
      modifies this`log, this`full, storage
      ensures Valid() && full == Splice(old(full), lastIncludedIndex, prev, entries)
      ensures storage.Contents() == old(storage.Contents()).(
                entries := Cut(old(storage.entries), old(full), lastIncludedIndex, prev, entries))
    {
      var i := 0;
      while i < |entries|
        invariant 0 <= i <= |entries| && Valid()
        invariant (full, storage.entries) == After(old(full), old(storage.entries), lastIncludedIndex, prev, entries, i)
        invariant storage.Contents() == old(storage.Contents()).(entries := storage.entries)
      {
        AfterInReach(old(full), old(storage.entries), lastIncludedIndex, prev, entries, i);
        AppendOne(prev + i + 1, entries[i]);
        i := i + 1;
      }
      AfterAll(old(full), old(storage.entries), lastIncludedIndex, prev, entries);
    }

    method AdvanceCommitTo(newCommit: nat)
      requires Valid() && lastIncludedIndex <= newCommit <= |full|
      modifies this`commitIndex, this`applyCh
      ensures Valid() && State() == RaftSpec.AdvanceCommitTo(old(State()), newCommit)
    {
      var toNotify: seq<Entry> := [];
      var i := commitIndex + 1;
      while i <= newCommit
        invariant commitIndex == old(commitIndex) < i && applyCh == old(applyCh)
        invariant if commitIndex <= newCommit then i <= newCommit + 1 && toNotify == full[commitIndex..i - 1]
                  else toNotify == []
      {
        var (pos, ok) := LogPos(i);
        if ok {
          toNotify := toNotify + [log[pos]];
        }
        i := i + 1;
      }
      commitIndex := newCommit;
      var j := 0;
      while j < |toNotify|
        invariant 0 <= j <= |toNotify| && commitIndex == newCommit
        invariant applyCh == old(applyCh) + Commands(toNotify[..j])
      {
        applyCh := applyCh + [Command(toNotify[j])];
        assert Commands(toNotify[..j + 1]) == Commands(toNotify[..j]) + [Command(toNotify[j])];
        j := j + 1;
      }
      assert toNotify[..j] == toNotify;
    }

    method HandleAppendEntries(req: AppendRequest) returns (resp: AppendResponse)
      requires Valid()
      modifies this, storage
      ensures Valid() && (State(), resp) == RaftSpec.HandleAppendEntries(old(State()), req)
    {
      if req.term < currentTerm {
        return AppendResponse(currentTerm, false, 0, 0, 0);
      }
      HearLeader(req.term, req.leaderId);
      var ok, rejection := CheckPrev(req);
      if !ok {
        return rejection;
      }
      Absorb(req);
      return AppendResponse(currentTerm, true, LastLogIndex(), 0, 0);
    }

    method TakeEntries(req: AppendRequest)
      requires Valid() && req.prevLogIndex <= |full|
      modifies this`log, this`full, storage
      ensures Valid() && full == Splice(old(full), lastIncludedIndex, req.prevLogIndex, req.entries)
      ensures storage.Contents() == old(storage.Contents()).(
                entries := Persist(old(storage.entries), old(full), lastIncludedIndex, req.prevLogIndex, req.entries))
    {
      AppendNew(req.prevLogIndex, req.entries);
      if |req.entries| > 0 {
        storage.AppendEntries(req.entries);
      }
    }

    method Absorb(req: AppendRequest)
      requires Valid() && req.prevLogIndex <= |full|
      modifies this`log, this`full, this`commitIndex, this`applyCh, storage
      ensures Valid() && State() == AbsorbEntries(old(State()), req)
    {
      TakeEntries(req);
      if req.leaderCommit > commitIndex {
        var newCommit := req.leaderCommit;
        if LastLogIndex() < newCommit {
          newCommit := LastLogIndex();
        }
        AdvanceCommitTo(newCommit);
      }
    }

    // -------------------------------------------------------------- replication, leader side

    /** How many nodes, this one included, are known to have the entry. */
    method CountReplicas(index: nat) returns (count: nat)
      requires Valid()
      ensures count == 1 + |Replicas(Cfg(), State(), index)|
    {
      count := 1;
      var rest := matchIndex.Keys;
      ghost var counted: set<NodeId> := {};
      while rest != {}
        invariant rest <= matchIndex.Keys && count == 1 + |counted|
        invariant counted == set p | p in matchIndex && p !in rest && p != id && matchIndex[p] >= index
        decreases rest
      {
        var p :| p in rest;
        rest := rest - {p};
        if p != id && matchIndex[p] >= index {
          count := count + 1;
          counted := counted + {p};
        }
      }
      assert counted == Replicas(Cfg(), State(), index);
    }

    method MaybeAdvanceCommit()
      requires Valid()
      modifies this`commitIndex, this`applyCh
      ensures Valid() && State() == RaftSpec.MaybeAdvanceCommit(Cfg(), old(State()))
    {
      var idx := LastLogIndex();
      while idx > commitIndex
        invariant Valid() && 0 <= idx <= |full| && State() == old(State())
        invariant Committable(Cfg(), State(), idx) == Committable(Cfg(), State(), |full|)
      {
        var (pos, ok) := LogPos(idx);
        if ok && log[pos].term == currentTerm {
          var count := CountReplicas(idx);
          if count >= Quorum() {
            AdvanceCommitTo(idx);
            return;
          }
        }
        idx := idx - 1;
      }
    }

    /** Appends a command to the leader's log; the index and term it got, if this node is leader. */
    method Propose(data: Bytes) returns (index: nat, term: nat, isLeader: bool)
      requires Valid()
      modifies this, storage
      ensures Valid() && State() == RaftSpec.Propose(Cfg(), old(State()), data)
      ensures isLeader <==> old(role) == Leader
      ensures isLeader ==> index == |full| && index == |old(full)| + 1 && full[index - 1] == Entry(index, term, data)
    {
      if role != Leader {
        return 0, 0, false;
      }
      var e := Entry(LastLogIndex() + 1, currentTerm, data);
      log, full := log + [e], full + [e];
      storage.AppendEntries([e]);
      MaybeAdvanceCommit();
      return e.index, e.term, true;
    }

    /** The request for a peer whose next entry is still in memory; none if it needs the snapshot. */
    method BuildAppend(peer: NodeId) returns (req: Option<AppendRequest>)
      requires Valid()
      ensures req.Some? <==> At(nextIndex, peer) > lastIncludedIndex
      ensures req.Some? ==> req.value == RaftSpec.BuildAppend(Cfg(), State(), peer)
    {
      var nextIdx := At(nextIndex, peer);
      if nextIdx <= lastIncludedIndex {
        return None;
      }
      var prevLogIndex := nextIdx - 1;
      var entries: seq<Entry> := [];
      if nextIdx <= LastLogIndex() {
        var (pos, ok) := LogPos(nextIdx);
        if ok {
          entries := log[pos..];
        }
      }
      var prevLogTerm := 0;
      if prevLogIndex > 0 {
        var (pos, ok) := LogPos(prevLogIndex);
        if ok {
          prevLogTerm := log[pos].term;
        }
      }
      return Some(AppendRequest(currentTerm, id, prevLogIndex, prevLogTerm, entries, commitIndex));
    }

    /** The next index to try after a rejection. */
    method NextAfterConflict(resp: AppendResponse) returns (next: nat)
      requires Valid()
      ensures next == Backtrack(State(), resp)
    {
      next := resp.conflictIndex;
      if resp.conflictTerm > 0 {
        var i := LastLogIndex();
        while i > lastIncludedIndex
          invariant 0 <= i <= |full| && next == resp.conflictIndex
          invariant LastOfTerm(State(), i, resp.conflictTerm) == LastOfTerm(State(), |full|, resp.conflictTerm)
        {
          var (pos, ok) := LogPos(i);
          if ok && log[pos].term == resp.conflictTerm {
            next := i + 1;
            break;
          }
          i := i - 1;
        }
      }
      if next < lastIncludedIndex + 1 {
        next := lastIncludedIndex + 1;
      }
    }

    method HandleAppendResponse(peer: NodeId, req: AppendRequest, resp: AppendResponse)
      requires Valid()
      modifies this, storage
      ensures Valid() && State() == RaftSpec.HandleAppendResponse(Cfg(), old(State()), peer, req, resp)
    {
      if resp.term > currentTerm {
        BecomeFollower(resp.term);
        return;
      }
      if role != Leader || currentTerm != req.term {
        return;
      }
      if resp.success {
        var newMatch := req.prevLogIndex + |req.entries|;
        if newMatch > At(matchIndex, peer) {
          matchIndex := matchIndex[peer := newMatch];
          nextIndex := nextIndex[peer := newMatch + 1];
        }
        MaybeAdvanceCommit();
      } else {
        var next := NextAfterConflict(resp);
        nextIndex := nextIndex[peer := next];
      }
    }

    // -------------------------------------------------------------- snapshots

    method HandleInstallSnapshot(req: SnapshotRequest, ghost covered: seq<Entry>) returns (resp: SnapshotResponse)
      requires Valid()
      modifies this, storage
      ensures Valid() && (State(), resp) == RaftSpec.HandleInstallSnapshot(old(State()), req, covered)
    {
      if req.term < currentTerm {
        return SnapshotResponse(currentTerm, false);
      }
      HearLeader(req.term, req.leaderId);
      if req.lastIncludedIndex <= lastIncludedIndex {
        return SnapshotResponse(currentTerm, true);
      }
      if req.offset == 0 {
        recvSnapshot := Receiving(req.lastIncludedIndex, req.lastIncludedTerm, []);
      }
      if recvSnapshot == Idle || recvSnapshot.index != req.lastIncludedIndex || |recvSnapshot.data| != req.offset {
        return SnapshotResponse(currentTerm, false);
      }
      recvSnapshot := recvSnapshot.(data := recvSnapshot.data + req.data);
      resp := SnapshotResponse(currentTerm, true);
      if !req.done {
        return;
      }
      InstallReceived(covered);
    }

    method StoreSnapshot(data: Bytes, index: nat, term: nat)
      modifies storage
      ensures storage.Contents() == old(storage.Contents()).(
                snapshot := data, snapIndex := index, snapTerm := term,
                entries := KeepAbove(old(storage.entries), index))
    {
      storage.SaveSnapshot(data, index, term);
      storage.TruncatePrefix(index);
    }

    method InstallReceived(ghost covered: seq<Entry>)
      requires Valid() && recvSnapshot.Receiving? && recvSnapshot.index > lastIncludedIndex
      modifies this, storage
      ensures Valid() && State() == Install(old(State()), old(recvSnapshot), covered)
    {
      var t := recvSnapshot;
      StoreSnapshot(t.data, t.index, t.term);
      StartAfter(t.index, t.term, covered);
      recvSnapshot, applyCh := Idle, applyCh + [Snapshot(t.data, t.index, t.term)];
    }

    method StartAfter(index: nat, term: nat, ghost covered: seq<Entry>)
      requires Valid() && lastIncludedIndex < index
      modifies this`log, this`full, this`lastIncludedIndex, this`lastIncludedTerm, this`commitIndex
      ensures Valid() && lastIncludedIndex == index && lastIncludedTerm == term
      ensures full == SnapshotLog(covered, index, term)
      ensures commitIndex == if index > old(commitIndex) then index else old(commitIndex)
    {
      log, full := [Entry(index, term, [])], SnapshotLog(covered, index, term);
      lastIncludedIndex, lastIncludedTerm := index, term;
      if index > commitIndex {
        commitIndex := index;
      }
    }

    /** Records that the application snapshot its state as of `index`; false if that is not committed here. */
    method CompactLog(data: Bytes, index: nat, term: nat) returns (ok: bool)
      requires Valid()
      modifies this, storage
      ensures Valid() && State() == RaftSpec.CompactLog(old(State()), data, index, term)
      ensures ok <==> index <= old(lastIncludedIndex) || index <= old(commitIndex)
    {
      if index <= lastIncludedIndex {
        return true;
      }
      if index > commitIndex {
        return false;
      }
      StoreSnapshot(data, index, term);
      DropUpTo(index, term);
      return true;
    }

    method DropUpTo(index: nat, term: nat)
      requires Valid() && lastIncludedIndex < index <= commitIndex
      modifies this`log, this`full, this`lastIncludedIndex, this`lastIncludedTerm
      ensures Valid() && lastIncludedIndex == index && lastIncludedTerm == term
      ensures full == if index <= |old(full)| then old(full) else SnapshotLog([], index, term)
    {
      var (pos, found) := LogPos(index);
      if found {
        assert log[pos..][1..] == full[index..];
        log := log[pos..];
      } else {
        log, full := [Entry(index, term, [])], SnapshotLog([], index, term);
      }
      lastIncludedIndex, lastIncludedTerm := index, term;
    }

    method HandleSnapshotResponse(peer: NodeId, req: SnapshotRequest, resp: SnapshotResponse)
      requires Valid()
      modifies this, storage
      ensures Valid() && State() == RaftSpec.HandleSnapshotResponse(old(State()), peer, req, resp)
    {
      if resp.term > currentTerm {
        BecomeFollower(resp.term);
        return;
      }
      if role != Leader || currentTerm != req.term || !resp.success {
        return;
      }
      if req.done && req.lastIncludedIndex > At(matchIndex, peer) {
        matchIndex := matchIndex[peer := req.lastIncludedIndex];
        nextIndex := nextIndex[peer := req.lastIncludedIndex + 1];
      }
    }
  }
}
