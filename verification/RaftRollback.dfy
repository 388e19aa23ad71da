/**
 The search for the last entry a leader and a follower have in common. RaftLimits says when it ends; this module says
 that no retry goes back further than need be, and that a retry leaves a whole term of the follower's log behind.
 */
module RaftRollback {

  import opened RaftTypes
  import opened RaftSpec
  import opened RaftCore
  import opened RaftCoreProofs
  import opened RaftCluster
  import opened RaftElectionSteps
  import opened RaftFollowerSteps
  import opened RaftSafety
  import opened RaftLimits

  // ---------------------------------------------------------------- what the two scans find

  lemma {:induction false} NoneOfTermAbove(y: NodeState, i: nat, term: nat, j: nat)
    requires i <= |y.log| && y.snapIndex < j <= i && LastOfTerm(y, i, term) < j
    ensures TermAt(y.log, j) != term
  {
    if TermAt(y.log, i) != term && j < i {
      NoneOfTermAbove(y, i - 1, term, j);
    }
  }

  /** Entry k is the last above the snapshot that is of the term. */
  ghost predicate IsLastOfTerm(y: NodeState, term: nat, k: nat) {
    && y.snapIndex < k <= |y.log| && TermAt(y.log, k) == term
    && forall j :: k < j <= |y.log| ==> TermAt(y.log, j) != term
  }

  /** The leader goes on behind its last entry of the conflicting term if it has one, and else where it is told to. */
  lemma BacktrackIs(y: NodeState, resp: AppendResponse)
    ensures forall k: nat :: resp.conflictTerm > 0 && IsLastOfTerm(y, resp.conflictTerm, k)
              ==> Backtrack(y, resp) == k + 1
    ensures (resp.conflictTerm == 0 || forall k: nat :: !IsLastOfTerm(y, resp.conflictTerm, k)) ==>
              Backtrack(y, resp) == Max(resp.conflictIndex, y.snapIndex + 1)
  {
    var t := resp.conflictTerm;
    var last := LastOfTerm(y, |y.log|, t);
    LastOfTermMeaning(y, |y.log|, t);
    if last > 0 {
      forall j | last < j <= |y.log| ensures TermAt(y.log, j) != t {
        NoneOfTermAbove(y, |y.log|, t, j);
      }
      assert IsLastOfTerm(y, t, last);
    }
    forall k: nat | IsLastOfTerm(y, t, k) ensures last == k {
      if last < k {
        NoneOfTermAbove(y, |y.log|, t, k);
      }
    }
  }

  /** The follower points to the first entry, above its snapshot, of the run of entries of that term. */
  lemma {:induction false} RunStartIs(x: NodeState, i: nat, term: nat)
    requires 0 < i <= |x.log| && TermAt(x.log, i) == term
    ensures var r := RunStart(x, i, term);
            && 0 < r <= i && (forall j :: r <= j <= i ==> TermAt(x.log, j) == term)
            && (r < i ==> r > x.snapIndex) && (r > x.snapIndex + 1 ==> TermAt(x.log, r - 1) != term)
  {
    if i > x.snapIndex + 1 && TermAt(x.log, i - 1) == term {
      RunStartIs(x, i - 1, term);
    }
  }

  // ---------------------------------------------------------------- one rejection

  lemma {:induction false} RunStartSame(x: NodeState, x': NodeState, i: nat, term: nat)
    requires i <= |x.log| && x'.log == x.log && x'.snapIndex == x.snapIndex
    ensures RunStart(x', i, term) == RunStart(x, i, term)
  {
    if i > x.snapIndex + 1 && TermAt(x.log, i - 1) == term {
      RunStartSame(x, x', i - 1, term);
    }
  }

  lemma RejectionIs(x: NodeState, req: AppendRequest)
    requires req.term == x.currentTerm
    ensures HandleAppendEntries(x, req).1.success <==> PrevMatches(x, req)
    ensures !PrevMatches(x, req) ==> HandleAppendEntries(x, req).1 == Rejection(Following(x, req.leaderId), req)
  {
  }

  /** How short the follower's log is, or the term of its entry and where that term begins. */
  predicate Explains(x: NodeState, prev: nat, prevTerm: nat, resp: AppendResponse) {
    if prev > |x.log| then resp.conflictTerm == 0 && resp.conflictIndex == |x.log| + 1
    else && x.snapIndex <= prev && TermAt(x.log, prev) != prevTerm && resp.conflictTerm == TermAt(x.log, prev)
         && resp.conflictIndex == RunStart(x, prev, resp.conflictTerm)
  }

  lemma RejectionExplains(x: NodeState, id: NodeId, req: AppendRequest)
    requires !PrevMatches(x, req)
    ensures 0 < req.prevLogIndex && Explains(x, req.prevLogIndex, req.prevLogTerm, Rejection(Following(x, id), req))
  {
    if req.prevLogIndex <= |x.log| {
      RunStartSame(x, Following(x, id), req.prevLogIndex, TermAt(x.log, req.prevLogIndex));
    }
  }

  lemma RejectedHow(cfg: Config, y: NodeState, x: NodeState, peer: NodeId, next: nat)
    requires x.currentTerm == y.currentTerm && y.snapIndex < next <= |y.log| + 1 && !Accepts(cfg, y, x, peer, next)
    ensures 1 < next
    ensures Explains(x, next - 1, TermAt(y.log, next - 1), HandleAppendEntries(x, Attempt(cfg, y, peer, next)).1)
  {
    var req := Attempt(cfg, y, peer, next);
    AttemptIs(cfg, y, peer, next);
    RejectionIs(x, req);
    RejectionExplains(x, req.leaderId, req);
  }

  /** The logs of one run: terms are at least 1 and never decrease. */
  ghost predicate Orderly(termLog: map<nat, seq<Entry>>) { TermLogsOk(termLog) && 0 !in termLog }

  lemma TermsRise(termLog: map<nat, seq<Entry>>, log: seq<Entry>, a: nat, b: nat)
    requires Orderly(termLog) && Coherent(termLog, log) && 0 < a <= b <= |log|
    ensures 0 < TermAt(log, a) <= TermAt(log, b)
  {
    assert CoherentAt(termLog, log, a - 1) && CoherentAt(termLog, log, b - 1);
    var t := log[b - 1].term;
    assert Bounded(termLog[t], t) && log[a - 1] == termLog[t][a - 1];
  }

  /** No retry goes back behind an entry up to which the two logs agree. */
  lemma NeverBelowCommon(cfg: Config, termLog: map<nat, seq<Entry>>, y: NodeState, x: NodeState, peer: NodeId,
                         next: nat, c: nat)
    requires Pair(termLog, y, x) && Orderly(termLog) && y.snapIndex < next <= |y.log| + 1
    requires !Accepts(cfg, y, x, peer, next) && Agree(x.log, y.log, c)
    ensures Retry(cfg, y, x, peer, next) > c
  {
    RejectedHow(cfg, y, x, peer, next);
    var resp, prev := HandleAppendEntries(x, Attempt(cfg, y, peer, next)).1, next - 1;
    BacktrackIs(y, resp);
    if prev <= |x.log| && c > 0 {
      var t := resp.conflictTerm;
      assert c < prev;
      TermsRise(termLog, x.log, c, prev);
      RunStartIs(x, prev, t);
      LastOfTermMeaning(y, |y.log|, t);
      var k := LastOfTerm(y, |y.log|, t);
      if k > 0 {
        LastIsNotBelow(termLog, y, t, k, c);
      } else if y.snapIndex < c {
        NoneOfTermAbove(y, |y.log|, t, c);
      }
    }
  }

  lemma LastIsNotBelow(termLog: map<nat, seq<Entry>>, y: NodeState, t: nat, k: nat, c: nat)
    requires Orderly(termLog) && Coherent(termLog, y.log) && 0 < k == LastOfTerm(y, |y.log|, t) && TermAt(y.log, k) == t
    requires y.snapIndex < k && 0 < c <= |y.log| && TermAt(y.log, c) <= t
    ensures k >= c
  {
    if k < c {
      TermsRise(termLog, y.log, k, c);
      NoneOfTermAbove(y, |y.log|, t, c);
    }
  }

  // ---------------------------------------------------------------- how many rejections there can be

  lemma AcceptsIff(cfg: Config, y: NodeState, x: NodeState, peer: NodeId, next: nat)
    requires x.currentTerm == y.currentTerm && y.snapIndex < next <= |y.log| + 1
    ensures Accepts(cfg, y, x, peer, next)
       <==> || next == 1
            || (&& next - 1 <= |x.log|
                && (next - 1 < x.snapIndex || TermAt(x.log, next - 1) == TermAt(y.log, next - 1)))
  {
    var req := Attempt(cfg, y, peer, next);
    AttemptIs(cfg, y, peer, next);
    RejectionIs(x, req);
  }

  /** The terms up to t that occur in the log. */
  function TermsUpTo(log: seq<Entry>, t: nat): set<nat> { set k | 0 <= k < |log| && log[k].term <= t :: log[k].term }

  /** They have in common what the follower's snapshot covers, and the end of the leader's. */
  ghost predicate InTouch(termLog: map<nat, seq<Entry>>, y: NodeState, x: NodeState) {
    Pair(termLog, y, x) && Orderly(termLog) && Agree(x.log, y.log, x.snapIndex) && HoldsSnapshotEnd(y, x)
  }

  lemma RetryGoesDown(cfg: Config, termLog: map<nat, seq<Entry>>, y: NodeState, x: NodeState, peer: NodeId, next: nat)
    requires InTouch(termLog, y, x) && y.snapIndex < next <= |y.log| + 1 && !Accepts(cfg, y, x, peer, next)
    ensures 1 < next && Retry(cfg, y, x, peer, next) < next
  {
    RejectionLowersNext(cfg, termLog, y, x, peer, next);
    FirstAttempt(cfg, y, x, peer);
  }

  /** An entry of the same term is asked about only where the leader has one, or where the snapshot begins. */
  lemma LandsOnAgreement(cfg: Config, termLog: map<nat, seq<Entry>>, y: NodeState, x: NodeState, peer: NodeId,
                         next: nat)
    requires InTouch(termLog, y, x) && y.snapIndex < next <= |y.log| + 1 && !Accepts(cfg, y, x, peer, next)
    requires next - 1 <= |x.log|
    requires var next' := Retry(cfg, y, x, peer, next);
             y.snapIndex + 1 < next' < next && TermAt(x.log, next' - 1) == TermAt(x.log, next - 1)
    ensures var prev := Retry(cfg, y, x, peer, next) - 1;
            prev < x.snapIndex || TermAt(x.log, prev) == TermAt(y.log, prev)
  {
    RejectedHow(cfg, y, x, peer, next);
    var resp := HandleAppendEntries(x, Attempt(cfg, y, peer, next)).1;
    var next', t := Retry(cfg, y, x, peer, next), TermAt(x.log, next - 1);
    var k := LastOfTerm(y, |y.log|, t);
    LastOfTermMeaning(y, |y.log|, t);
    TermsRise(termLog, x.log, next - 1, next - 1);
    if k == 0 {
      RunStartIs(x, next - 1, t);
      assert next' - 1 <= x.snapIndex;
    }
  }

  /** An earlier entry is one of an earlier term, or is accepted. */
  lemma EarlierTerm(cfg: Config, termLog: map<nat, seq<Entry>>, y: NodeState, x: NodeState, peer: NodeId, next: nat,
                    next': nat)
    requires InTouch(termLog, y, x) && y.snapIndex < next' < next <= |y.log| + 1 && next - 1 <= |x.log|
    requires y.snapIndex + 1 < next' && TermAt(x.log, next' - 1) == TermAt(x.log, next - 1) ==>
               next' - 1 < x.snapIndex || TermAt(x.log, next' - 1) == TermAt(y.log, next' - 1)
    ensures Accepts(cfg, y, x, peer, next') || TermAt(x.log, next' - 1) < TermAt(x.log, next - 1)
  {
    if next' == y.snapIndex + 1 {
      FirstAttempt(cfg, y, x, peer);
    } else {
      AcceptsIff(cfg, y, x, peer, next');
      TermsRise(termLog, x.log, next' - 1, next - 1);
    }
  }

  /** After a rejection the follower accepts, or it is asked about an entry of an earlier term. */
  lemma LeavesTermBehind(cfg: Config, termLog: map<nat, seq<Entry>>, y: NodeState, x: NodeState, peer: NodeId,
                         next: nat, next': nat)
    requires InTouch(termLog, y, x) && y.snapIndex < next <= |y.log| + 1 && !Accepts(cfg, y, x, peer, next)
    requires next - 1 <= |x.log| && next' == Retry(cfg, y, x, peer, next)
    ensures 1 < next && next' < next
    ensures Accepts(cfg, y, x, peer, next') || TermAt(x.log, next' - 1) < TermAt(x.log, next - 1)
  {
    RetryGoesDown(cfg, termLog, y, x, peer, next);
    if y.snapIndex + 1 < next' && TermAt(x.log, next' - 1) == TermAt(x.log, next - 1) {
      LandsOnAgreement(cfg, termLog, y, x, peer, next);
    }
    EarlierTerm(cfg, termLog, y, x, peer, next, next');
  }

  lemma FewerTerms(log: seq<Entry>, t: nat, t': nat, k: nat)
    requires k < |log| && log[k].term == t && t' < t
    ensures |TermsUpTo(log, t')| < |TermsUpTo(log, t)|
  {
    assert t in TermsUpTo(log, t) && t !in TermsUpTo(log, t') && TermsUpTo(log, t') <= TermsUpTo(log, t) - {t};
    SubsetSize(TermsUpTo(log, t'), TermsUpTo(log, t) - {t});
  }

  /** A search that is accepted at some places and sent on from the others, with k retries to go. */
  predicate EndsIn(accepted: nat -> bool, retry: nat -> nat, next: nat, k: nat)
    decreases k
  {
    accepted(next) || (k > 0 && EndsIn(accepted, retry, retry(next), k - 1))
  }

  lemma {:induction false} EndsInMore(accepted: nat -> bool, retry: nat -> nat, next: nat, k: nat, k': nat)
    requires EndsIn(accepted, retry, next, k) && k <= k'
    ensures EndsIn(accepted, retry, next, k')
    decreases k
  {
    if !accepted(next) {
      EndsInMore(accepted, retry, retry(next), k - 1, k' - 1);
    }
  }

  /** Between the bounds every retry goes back, and the measure falls unless it is then accepted. */
  ghost predicate Shrinks(accepted: nat -> bool, retry: nat -> nat, low: nat, top: nat, m: nat -> nat) {
    forall n: nat :: low < n <= top && !accepted(n) ==>
      low < retry(n) < n && 0 < m(n) && (accepted(retry(n)) || m(retry(n)) < m(n))
  }

  lemma {:induction false} EndsByMeasure(accepted: nat -> bool, retry: nat -> nat, low: nat, top: nat, m: nat -> nat,
                                         next: nat)
    requires Shrinks(accepted, retry, low, top, m) && low < next <= top
    ensures EndsIn(accepted, retry, next, m(next))
    decreases next
  {
    if !accepted(next) && !accepted(retry(next)) {
      EndsByMeasure(accepted, retry, low, top, m, retry(next));
      EndsInMore(accepted, retry, retry(next), m(retry(next)), m(next) - 1);
    }
  }

  /** The negotiation as such a search. */
  function AcceptedAt(cfg: Config, y: NodeState, x: NodeState, peer: NodeId): nat -> bool {
    (n: nat) => n > y.snapIndex && Accepts(cfg, y, x, peer, n)
  }

  function RetriedAt(cfg: Config, y: NodeState, x: NodeState, peer: NodeId): nat -> nat {
    (n: nat) => if n > y.snapIndex then Retry(cfg, y, x, peer, n) else 0
  }

  lemma {:induction false} IsSearch(cfg: Config, y: NodeState, x: NodeState, peer: NodeId, next: nat, k: nat)
    requires y.snapIndex < next && EndsIn(AcceptedAt(cfg, y, x, peer), RetriedAt(cfg, y, x, peer), next, k)
    ensures AcceptedWithin(cfg, y, x, peer, next, k)
    decreases k
  {
    if !Accepts(cfg, y, x, peer, next) {
      IsSearch(cfg, y, x, peer, Retry(cfg, y, x, peer, next), k - 1);
    }
  }

  /** How many terms up to the one asked about there are in the log. */
  function TermsLeft(log: seq<Entry>): nat -> nat {
    (n: nat) => if 0 < n <= |log| + 1 then |TermsUpTo(log, TermAt(log, n - 1))| else 0
  }

  lemma FewerTermsLeft(log: seq<Entry>, n: nat, n': nat)
    requires 0 < n' < n <= |log| + 1 && TermAt(log, n' - 1) < TermAt(log, n - 1)
    ensures TermsLeft(log)(n') < TermsLeft(log)(n)
  {
    FewerTerms(log, TermAt(log, n - 1), TermAt(log, n' - 1), n - 2);
  }

  lemma SomeTermLeft(log: seq<Entry>, n: nat)
    requires 1 < n <= |log| + 1
    ensures TermsLeft(log)(n) > 0
  {
    assert log[n - 2].term in TermsUpTo(log, TermAt(log, n - 1));
  }

  lemma TermShrinks(cfg: Config, termLog: map<nat, seq<Entry>>, y: NodeState, x: NodeState, peer: NodeId, n: nat,
                    n': nat)
    requires InTouch(termLog, y, x) && y.snapIndex < n <= |y.log| + 1 && n <= |x.log| + 1
    requires !Accepts(cfg, y, x, peer, n) && n' == Retry(cfg, y, x, peer, n)
    ensures n' < n && 0 < TermsLeft(x.log)(n)
    ensures Accepts(cfg, y, x, peer, n') || TermsLeft(x.log)(n') < TermsLeft(x.log)(n)
  {
    LeavesTermBehind(cfg, termLog, y, x, peer, n, n');
    SomeTermLeft(x.log, n);
    if !Accepts(cfg, y, x, peer, n') {
      FewerTermsLeft(x.log, n, n');
    }
  }

  lemma TermsShrink(cfg: Config, termLog: map<nat, seq<Entry>>, y: NodeState, x: NodeState, peer: NodeId, top: nat)
    requires InTouch(termLog, y, x) && top <= |y.log| + 1 && top <= |x.log| + 1
    ensures Shrinks(AcceptedAt(cfg, y, x, peer), RetriedAt(cfg, y, x, peer), y.snapIndex, top, TermsLeft(x.log))
  {
    var accepted, retry, m := AcceptedAt(cfg, y, x, peer), RetriedAt(cfg, y, x, peer), TermsLeft(x.log);
    forall n: nat | y.snapIndex < n <= top && !accepted(n)
      ensures y.snapIndex < retry(n) < n && 0 < m(n) && (accepted(retry(n)) || m(retry(n)) < m(n))
    {
      TermShrinks(cfg, termLog, y, x, peer, n, retry(n));
    }
  }

  lemma EndsWithinTerms(cfg: Config, termLog: map<nat, seq<Entry>>, y: NodeState, x: NodeState, peer: NodeId, next: nat)
    requires InTouch(termLog, y, x) && y.snapIndex < next <= |y.log| + 1 && next <= |x.log| + 1
    ensures EndsIn(AcceptedAt(cfg, y, x, peer), RetriedAt(cfg, y, x, peer), next, TermsLeft(x.log)(next))
  {
    TermsShrink(cfg, termLog, y, x, peer, next);
    EndsByMeasure(AcceptedAt(cfg, y, x, peer), RetriedAt(cfg, y, x, peer), y.snapIndex, next, TermsLeft(x.log), next);
  }

  lemma TooShort(cfg: Config, y: NodeState, x: NodeState, peer: NodeId, next: nat)
    requires x.currentTerm == y.currentTerm && y.snapIndex < next <= |y.log| + 1 && |x.log| + 1 < next
    requires HoldsSnapshotEnd(y, x)
    ensures Retry(cfg, y, x, peer, next) == |x.log| + 1
  {
    AcceptsIff(cfg, y, x, peer, next);
    RejectedHow(cfg, y, x, peer, next);
  }

  lemma EndsFast(cfg: Config, termLog: map<nat, seq<Entry>>, y: NodeState, x: NodeState, peer: NodeId, next: nat)
    requires InTouch(termLog, y, x) && y.snapIndex < next <= |y.log| + 1
    ensures EndsIn(AcceptedAt(cfg, y, x, peer), RetriedAt(cfg, y, x, peer), next,
                   |TermsUpTo(x.log, LastTerm(x.log))| + 1)
  {
    var n := |TermsUpTo(x.log, LastTerm(x.log))|;
    if next > |x.log| + 1 {
      TooShort(cfg, y, x, peer, next);
      EndsWithinTerms(cfg, termLog, y, x, peer, |x.log| + 1);
    } else {
      EndsWithinTerms(cfg, termLog, y, x, peer, next);
      TermsBelowLast(termLog, x.log, next - 1);
      EndsInMore(AcceptedAt(cfg, y, x, peer), RetriedAt(cfg, y, x, peer), next, TermsLeft(x.log)(next), n + 1);
    }
  }

  /** From any next index the follower accepts after at most one rejection more than there are terms in its log. */
  lemma FastRollback(cfg: Config, termLog: map<nat, seq<Entry>>, y: NodeState, x: NodeState, peer: NodeId, next: nat)
    requires InTouch(termLog, y, x) && y.snapIndex < next <= |y.log| + 1
    ensures AcceptedWithin(cfg, y, x, peer, next, |TermsUpTo(x.log, LastTerm(x.log))| + 1)
  {
    EndsFast(cfg, termLog, y, x, peer, next);
    IsSearch(cfg, y, x, peer, next, |TermsUpTo(x.log, LastTerm(x.log))| + 1);
  }

  lemma TermsBelowLast(termLog: map<nat, seq<Entry>>, log: seq<Entry>, i: nat)
    requires Orderly(termLog) && Coherent(termLog, log) && i <= |log|
    ensures |TermsUpTo(log, TermAt(log, i))| <= |TermsUpTo(log, LastTerm(log))|
  {
    if i > 0 {
      TermsRise(termLog, log, i, |log|);
    }
    SubsetSize(TermsUpTo(log, TermAt(log, i)), TermsUpTo(log, LastTerm(log)));
  }

  // ---------------------------------------------------------------- in every run

  lemma RunIsOrderly(run: seq<Cluster>, i: nat)
    requires IsRun(run) && i < |run|
    ensures Orderly(run[i].core.termLog)
  {
    RunIsGood(run, i);
    forall t | t in run[i].core.termLog ensures t >= 1 {
      assert ElectionOk(run[i].core, t);
    }
  }

  /** A leader and any node of its term. */
  ghost predicate LeadsIn(run: seq<Cluster>, i: nat, n: NodeId, peer: NodeId) {
    && IsRun(run) && i < |run| && n in run[i].nodes && peer in run[i].nodes && peer != n
    && run[i].nodes[n].role == Leader && run[i].nodes[n].currentTerm == run[i].nodes[peer].currentTerm
  }

  /** In any state of any run, no retry goes back behind what the leader and the follower have in common. */
  lemma RetryKeepsCommon(run: seq<Cluster>, i: nat, n: NodeId, peer: NodeId, next: nat, c: nat)
    requires LeadsIn(run, i, n, peer) && Agree(run[i].nodes[peer].log, run[i].nodes[n].log, c)
    requires run[i].nodes[n].snapIndex < next <= |run[i].nodes[n].log| + 1
    requires !Accepts(Cfg(run[i], n), run[i].nodes[n], run[i].nodes[peer], peer, next)
    ensures Retry(Cfg(run[i], n), run[i].nodes[n], run[i].nodes[peer], peer, next) > c
  {
    RunPair(run, i, n, peer);
    RunIsOrderly(run, i);
    NeverBelowCommon(Cfg(run[i], n), run[i].core.termLog, run[i].nodes[n], run[i].nodes[peer], peer, next, c);
  }

  lemma SnapshotIsCommon(run: seq<Cluster>, i: nat, n: NodeId, peer: NodeId)
    requires LeadsIn(run, i, n, peer)
    ensures Agree(run[i].nodes[peer].log, run[i].nodes[n].log, run[i].nodes[peer].snapIndex)
  {
    RunIsGood(run, i);
    GoodParts(run[i]);
    NodeFacts(run[i], n);
    CommittedWithLeader(run[i], peer);
  }

  /**
   In any state of any run: where the follower has the end of the leader's snapshot, it accepts after at most one
   rejection more than there are terms in its log, whatever next index the leader begins with.
   */
  lemma RollbackIsFast(run: seq<Cluster>, i: nat, n: NodeId, peer: NodeId, next: nat)
    requires LeadsIn(run, i, n, peer) && run[i].nodes[n].snapIndex < next <= |run[i].nodes[n].log| + 1
    requires HoldsSnapshotEnd(run[i].nodes[n], run[i].nodes[peer])
    ensures var x := run[i].nodes[peer];
            AcceptedWithin(Cfg(run[i], n), run[i].nodes[n], x, peer, next, |TermsUpTo(x.log, LastTerm(x.log))| + 1)
  {
    RunPair(run, i, n, peer);
    RunIsOrderly(run, i);
    SnapshotIsCommon(run, i, n, peer);
    FastRollback(Cfg(run[i], n), run[i].core.termLog, run[i].nodes[n], run[i].nodes[peer], peer, next);
  }
}
