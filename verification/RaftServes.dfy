/**
 Runs in which something happens. From wherever a run has come to, any majority that has not compacted goes on to hand
 out whatever it is asked for; so does a majority of a fresh cluster of any size, and a cluster of one does so with its
 storage in step. What is stated of all runs is therefore stated of these as well.
 */
module RaftServes {

  import opened Bytes
  import opened RaftTypes
  import opened RaftSpec
  import opened RaftCore
  import opened RaftCluster
  import opened RaftInvariant
  import opened RaftSafety
  import opened RaftStream
  import opened RaftReplicas
  import opened RaftProgress

  // ---------------------------------------------------------------- the application's part in it

  lemma GoesFaithfully(enc: Encoder, s: Cluster, s': Cluster)
    requires Goes(s, s')
    ensures FaithfulNext(enc, s, s')
  {
    var step :| Ordinary(step) && Enabled(s, step) && s' == Apply(s, step);
    assert Faithful(enc, s, step);
  }

  lemma ContinuesFaithfully(enc: Encoder, past: seq<Cluster>, run: seq<Cluster>, s: Cluster)
    requires IsFaithfulRun(enc, past) && Continues(past, run, s)
    ensures IsFaithfulRun(enc, run)
  {
    ContinuesRun(past, run, s);
    forall i: nat | i + 1 < |run| ensures FaithfulAt(enc, run, i) {
      if i + 1 < |past| {
        assert FaithfulAt(enc, past, i) && run[i] == past[i] && run[i + 1] == past[i + 1];
      } else {
        WentAt(past, run, s, i);
        GoesFaithfully(enc, run[i], run[i + 1]);
      }
    }
  }

  /** Since it was x the node has handed out the entries committed since, in order, and nothing else. */
  ghost predicate PassedOn(x: NodeState, x': NodeState) {
    && x.commitIndex <= x'.commitIndex <= |x'.log|
    && x'.out == x.out + Commands(x'.log[x.commitIndex..x'.commitIndex])
  }

  lemma PassesOnMore(x: NodeState, x1: NodeState, x2: NodeState)
    requires PassedOn(x, x1) && Advanced(x1, x2) && Agree(x2.log, x1.log, x1.commitIndex)
    ensures PassedOn(x, x2)
  {
    var a, b, c := x.commitIndex, x1.commitIndex, x2.commitIndex;
    assert x2.log[a..b] == x1.log[a..b];
    assert x2.log[a..c] == x2.log[a..b] + x2.log[b..c];
    assert Commands(x2.log[a..c]) == Commands(x2.log[a..b]) + Commands(x2.log[b..c]);
  }

  lemma StepAdvances(s: Cluster, step: Step)
    requires Good(s) && Ordinary(step) && Enabled(s, step)
    ensures var o := Perform(s, step); Advanced(s.nodes[o.n], o.x)
  {
    CommitInLog(s, Perform(s, step).n);
    if step.DeliverAppendCall? {
      AppendCallFlows(s, step.m);
    } else {
      PlainFlows(s, step);
    }
  }

  lemma WhoMoved(s: Cluster, s': Cluster) returns (n: NodeId, x: NodeState)
    requires Goes(s, s')
    ensures n in s.nodes && s'.nodes == s.nodes[n := x] && (Good(s) ==> Advanced(s.nodes[n], x))
  {
    var step :| Ordinary(step) && Enabled(s, step) && s' == Apply(s, step);
    n, x := Perform(s, step).n, Perform(s, step).x;
    if Good(s) {
      StepAdvances(s, step);
    }
  }

  lemma MovedOrStayed(nodes: map<NodeId, NodeState>, p: NodeId, x: NodeState, n: NodeId)
    requires p in nodes && Advanced(nodes[p], x) && n in nodes && nodes[n].commitIndex <= |nodes[n].log|
    ensures Advanced(nodes[n], nodes[p := x][n])
  {
    Stays(nodes[n]);
  }

  lemma GoesAdvances(s: Cluster, s': Cluster, n: NodeId)
    requires Good(s) && Goes(s, s') && n in s.nodes
    ensures n in s'.nodes && Advanced(s.nodes[n], s'.nodes[n])
    ensures Agree(s'.nodes[n].log, s.nodes[n].log, s.nodes[n].commitIndex)
  {
    var p, x := WhoMoved(s, s');
    CommitInLog(s, n);
    MovedOrStayed(s.nodes, p, x, n);
    GoesIsNext(s, s');
    NextKeeps(s, s');
    CommittedStays(s, s', n);
  }

  lemma Stays(x: NodeState)
    requires x.commitIndex <= |x.log|
    ensures Advanced(x, x) && PassedOn(x, x)
  {
    assert x.out + Commands([]) == x.out;
  }

  ghost predicate AllPassedOn(s: Cluster, s': Cluster) {
    s'.nodes.Keys == s.nodes.Keys && forall n :: n in s.nodes ==> PassedOn(s.nodes[n], s'.nodes[n])
  }

  lemma AllStay(s: Cluster)
    requires Good(s)
    ensures AllPassedOn(s, s)
  {
    forall n | n in s.nodes ensures PassedOn(s.nodes[n], s.nodes[n]) {
      CommitInLog(s, n);
      Stays(s.nodes[n]);
    }
  }

  ghost predicate AllAdvanced(s: Cluster, s': Cluster) {
    && s'.nodes.Keys == s.nodes.Keys
    && forall n :: n in s.nodes ==>
         Advanced(s.nodes[n], s'.nodes[n]) && Agree(s'.nodes[n].log, s.nodes[n].log, s.nodes[n].commitIndex)
  }

  lemma SameNodes(s: Cluster, s': Cluster)
    requires Goes(s, s')
    ensures s'.nodes.Keys == s.nodes.Keys
  {
    var p, x := WhoMoved(s, s');
  }

  lemma AllAdvance(s: Cluster, s': Cluster)
    requires Good(s) && Goes(s, s')
    ensures AllAdvanced(s, s')
  {
    SameNodes(s, s');
    forall n | n in s.nodes
      ensures Advanced(s.nodes[n], s'.nodes[n]) && Agree(s'.nodes[n].log, s.nodes[n].log, s.nodes[n].commitIndex)
    {
      GoesAdvances(s, s', n);
    }
  }

  lemma AllPassOnMore(s: Cluster, s1: Cluster, s2: Cluster)
    requires AllPassedOn(s, s1) && AllAdvanced(s1, s2)
    ensures AllPassedOn(s, s2)
  {
    forall n | n in s.nodes ensures PassedOn(s.nodes[n], s2.nodes[n]) {
      PassesOnMore(s.nodes[n], s1.nodes[n], s2.nodes[n]);
    }
  }

  lemma GoingOnPassesOn(s0: Cluster, s1: Cluster, s2: Cluster)
    requires AllPassedOn(s0, s1) && Good(s1) && Goes(s1, s2)
    ensures AllPassedOn(s0, s2)
  {
    AllAdvance(s1, s2);
    AllPassOnMore(s0, s1, s2);
  }

  lemma {:induction false} PassesOnUpTo(past: seq<Cluster>, run: seq<Cluster>, s0: Cluster, s: Cluster, i: nat)
    requires IsRun(run) && Continues(past, run, s) && s0 == past[|past| - 1] && |past| <= i + 1 <= |run|
    ensures AllPassedOn(s0, run[i])
  {
    if i + 1 == |past| {
      RunIsGood(run, i);
      AllStay(s0);
    } else {
      var h := i - 1;
      PassesOnUpTo(past, run, s0, s, h);
      RunIsGood(run, h);
      WentAt(past, run, s, h);
      GoingOnPassesOn(s0, run[h], run[i]);
    }
  }

  lemma RunPassesOn(past: seq<Cluster>, run: seq<Cluster>, s0: Cluster, s: Cluster)
    requires IsRun(past) && Continues(past, run, s) && s0 == past[|past| - 1]
    ensures AllPassedOn(s0, s)
  {
    ContinuesRun(past, run, s);
    PassesOnUpTo(past, run, s0, s, |run| - 1);
  }

  // ---------------------------------------------------------------- majorities

  /**
   Every run, whatever its last state, goes on so that the nodes of any majority without compacted logs hand out, one
   after the other, all they had not yet handed out of one common log that ends with the given writes.
   */
  lemma AnyMajorityHandsOut(enc: Encoder, run: seq<Cluster>, group: set<NodeId>, writes: seq<Bytes>)
      returns (run': seq<Cluster>, s: Cluster, l: NodeId)
    requires IsFaithfulRun(enc, run) && Majority(run[|run| - 1], group) && Uncompacted(run[|run| - 1], group)
    requires writes != []
    ensures IsFaithfulRun(enc, run') && Continues(run, run', s) && Served(s, l, group)
    ensures AllPassedOn(run[|run| - 1], s)
    ensures var s0, log := run[|run| - 1], s.nodes[l].log;
            && log == s0.nodes[l].log + Asked(|s0.nodes[l].log|, s.nodes[l].currentTerm, writes)
            && forall q :: q in group ==>
                 && s0.nodes[q].commitIndex <= |log|
                 && s.nodes[q].out == s0.nodes[q].out + Commands(log[s0.nodes[q].commitIndex..])
  {
    run', s, l := AnyMajorityServes(run, group, writes);
    ContinuesFaithfully(enc, run, run', s);
    var s0, log := run[|run| - 1], s.nodes[l].log;
    RunPassesOn(run, run', s0, s);
    forall q | q in group
      ensures s0.nodes[q].commitIndex <= |log|
      ensures s.nodes[q].out == s0.nodes[q].out + Commands(log[s0.nodes[q].commitIndex..])
    {
      assert PassedOn(s0.nodes[q], s.nodes[q]);
      assert log[s0.nodes[q].commitIndex..] == log[s0.nodes[q].commitIndex..|log|];
    }
  }

  lemma {:induction false} Everywhere<T>(ids: set<NodeId>, v: T) returns (m: map<NodeId, T>)
    ensures m.Keys == ids && forall n :: n in ids ==> m[n] == v
    decreases ids
  {
    m := map[];
    if ids != {} {
      var n :| n in ids;
      m := Everywhere(ids - {n}, v);
      m := m[n := v];
    }
  }

  lemma Fresh(ids: set<NodeId>) returns (s: Cluster)
    requires NO_NODE !in ids
    ensures Init(s) && s.nodes.Keys == ids
  {
    var nodes := Everywhere(ids, Restart(BLANK_DISK, []));
    var peers := Everywhere(ids, Peer(0, [], 0));
    s := Cluster(nodes, {}, Core(ids, peers, map[], map[], map[], map[]), {});
  }

  /** Whatever the writes, any majority of a fresh cluster of any size can hand out exactly these. */
  lemma FreshClusterServes(enc: Encoder, ids: set<NodeId>, group: set<NodeId>, writes: seq<Bytes>)
      returns (run: seq<Cluster>, s: Cluster, t: nat)
    requires NO_NODE !in ids && group <= ids && 2 * |group| > |ids|
    ensures IsFaithfulRun(enc, run) && run[|run| - 1] == s && s.nodes.Keys == ids
    ensures forall q :: q in group ==> s.nodes[q].out == Commands(Asked(0, t, writes))
  {
    var s0 := Fresh(ids);
    if writes == [] {
      run, s, t := [s0], s0, 0;
    } else {
      var l;
      run, s, l := AnyMajorityHandsOut(enc, [s0], group, writes);
      t := s.nodes[l].currentTerm;
      forall q | q in group ensures s.nodes[q].out == Commands(Asked(0, t, writes)) {
        assert s.nodes[l].log[0..] == Asked(0, t, writes);
      }
    }
  }

  // ---------------------------------------------------------------- a cluster of one

  /** The node leads and has taken in exactly these writes. */
  predicate Leads(x: NodeState, writes: seq<Bytes>) {
    && x.role == Leader && x.currentTerm == 1 && x.matchIndex == map[] && x.snapIndex == 0
    && x.log == x.disk.entries == Asked(0, 1, writes) && x.commitIndex == |writes|
  }

  /** The whole cluster is node n, and it has handed out exactly these writes, in this order. */
  ghost predicate SoleServed(s: Cluster, n: NodeId, writes: seq<Bytes>) {
    s.nodes.Keys == {n} && Leads(s.nodes[n], writes) && s.nodes[n].out == Commands(Asked(0, 1, writes))
  }

  lemma ElectsItself(x: NodeState, n: NodeId)
    requires x == Restart(BLANK_DISK, [])
    ensures var x' := StartElection(Config(n, {}), x); Leads(x', []) && x'.out == []
  {
  }

  /** The one vote needed is its own: the write is committed where it is proposed. */
  lemma CommitsAtOnce(x: NodeState, n: NodeId, writes: seq<Bytes>, data: Bytes)
    requires Leads(x, writes)
    ensures var x' := Propose(Config(n, {}), x, data);
            Leads(x', writes + [data]) && x'.out == x.out + Commands([Entry(|writes| + 1, 1, data)])
  {
    var e := Entry(|x.log| + 1, x.currentTerm, data);
    var x1 := x.(log := x.log + [e], disk := x.disk.(entries := x.disk.entries + [e]));
    assert Asked(0, 1, writes + [data]) == Asked(0, 1, writes) + [e];
    assert Replicated(Config(n, {}), x1, |x1.log|);
    assert x1.log[|writes|..|x1.log|] == [e];
  }

  lemma Rises(past: seq<Cluster>, n: NodeId) returns (run: seq<Cluster>, s: Cluster)
    requires IsRun(past) && past[|past| - 1].nodes == map[n := Restart(BLANK_DISK, [])]
    ensures Continues(past, run, s) && SoleServed(s, n, [])
  {
    var s0 := past[|past| - 1];
    assert Cfg(s0, n) == Config(n, {});
    ElectsItself(s0.nodes[n], n);
    run, s := TimesOut(past, past, s0, n);
  }

  lemma {:induction false} SoleRun(past: seq<Cluster>, n: NodeId, writes: seq<Bytes>)
      returns (run: seq<Cluster>, s: Cluster)
    requires IsRun(past) && past[|past| - 1].nodes == map[n := Restart(BLANK_DISK, [])]
    ensures Continues(past, run, s) && SoleServed(s, n, writes)
  {
    if writes == [] {
      run, s := Rises(past, n);
    } else {
      var k := |writes| - 1;
      var before, data := writes[..k], writes[k];
      var run0, s0 := SoleRun(past, n, before);
      assert Cfg(s0, n) == Config(n, {}) && writes == before + [data];
      CommitsAtOnce(s0.nodes[n], n, before, data);
      run, s := IsAsked(past, run0, s0, n, data);
      assert Commands(Asked(0, 1, writes)) == Commands(Asked(0, 1, before)) + Commands([Entry(k + 1, 1, data)]);
    }
  }

  /** Whatever the writes, there is a run in which a cluster of one hands out exactly these, and may then crash. */
  lemma SoleNodeServes(enc: Encoder, n: NodeId, writes: seq<Bytes>) returns (run: seq<Cluster>, s: Cluster)
    requires n != NO_NODE
    ensures IsFaithfulRun(enc, run) && run[|run| - 1] == s
    ensures SoleServed(s, n, writes) && Enabled(s, CrashAndRestart(n))
  {
    var s0 := Fresh({n});
    run, s := SoleRun([s0], n, writes);
    ContinuesFaithfully(enc, [s0], run, s);
    RunPresent([s0], run, s, n);
    assert s.nodes[n].log[0..] == s.nodes[n].log;
  }
}
