/**
 A truncation of the write-ahead log cut off by a crash. TruncateSuffix and TruncatePrefix remove all segment files, in
 the order of their names, before they write what they keep to a new one.
 */
module WalCrash {

  import opened Wrappers
  import opened RaftTypes
  import opened RaftSpec
  import opened Wal
  import opened WalLog

  /** What a truncation keeps: the entries up to the index, or those above it. */
  function Kept(es: seq<Entry>, index: nat, below: bool): seq<Entry> {
    if below then KeepUpTo(es, index) else KeepAbove(es, index)
  }

  /** How far it got: so many files removed, or so many bytes of the new file written. */
  datatype Stage = Removing(gone: nat) | Rewriting(written: nat)

  ghost predicate Reached(c: Codec, segs: seq<Segment>, keep: seq<Entry>, at: Stage) {
    match at
    case Removing(k) => k <= |segs|
    case Rewriting(n) => n <= |SegmentBytes(c, keep)|
  }

  /** What is on disk then. */
  function LeftOnDisk(c: Codec, segs: seq<Segment>, keep: seq<Entry>, first: nat, at: Stage): seq<Segment>
    requires Reached(c, segs, keep, at)
  {
    match at
    case Removing(k) => segs[k..]
    case Rewriting(n) => [Segment(first, SegmentBytes(c, keep)[..n])]
  }

  lemma {:induction false} ReplayedBoth(c: Codec, a: seq<Segment>, b: seq<Segment>)
    requires Replayed(c, a + b).Some?
    ensures Replayed(c, a).Some? && Replayed(c, b).Some?
    ensures Replayed(c, a + b).value == Replayed(c, a).value + Replayed(c, b).value
  {
    if b == [] {
      assert a + b == a;
    } else {
      LastOfBoth(a, b);
      ReplayedBoth(c, a, b[..|b| - 1]);
      PrependTwice(Replayed(c, a).value, Replayed(c, b[..|b| - 1]).value, ReadRecords(c, b[|b| - 1].bytes));
    }
  }

  lemma KeptLast(es: seq<Entry>, index: nat, below: bool)
    requires es != []
    ensures var n := |es| - 1;
            Kept(es, index, below)
            == Kept(es[..n], index, below) + if (es[n].index <= index) == below then [es[n]] else []
  {
  }

  lemma {:induction false} KeptBoth(a: seq<Entry>, b: seq<Entry>, index: nat, below: bool)
    ensures Kept(a + b, index, below) == Kept(a, index, below) + Kept(b, index, below)
  {
    if b == [] {
      assert a + b == a;
    } else {
      var n := |b| - 1;
      LastOfBoth(a, b);
      KeptBoth(a, b[..n], index, below);
      KeptLast(b, index, below);
      KeptLast(a + b, index, below);
    }
  }

  lemma {:induction false} KeptTwice(es: seq<Entry>, index: nat, below: bool)
    ensures Kept(Kept(es, index, below), index, below) == Kept(es, index, below)
  {
    if es != [] {
      var n := |es| - 1;
      KeptTwice(es[..n], index, below);
      var kept := Kept(es[..n], index, below);
      assert (kept + [es[n]])[..|kept|] == kept;
    }
  }

  lemma {:induction false} AllWhole(c: Codec, es: seq<Entry>, n: nat)
    requires n <= |SegmentBytes(c, es)|
    ensures Whole(c, es, n) == |es| <==> n == |SegmentBytes(c, es)|
  {
    if es != [] && n >= |Record(c, es[0])| {
      AllWhole(c, es[1..], n - |Record(c, es[0])|);
    }
  }

  /** No entry to be kept is in a file that is gone, or is not yet in the new one. */
  ghost predicate NothingLost(c: Codec, segs: seq<Segment>, keep: seq<Entry>, index: nat, below: bool, at: Stage)
    requires Reached(c, segs, keep, at)
  {
    match at
    case Removing(k) => Replayed(c, segs[..k]).Some? ==> Kept(Replayed(c, segs[..k]).value, index, below) == []
    case Rewriting(n) => n == |SegmentBytes(c, keep)|
  }

  lemma CutOffRemoval(c: Codec, segs: seq<Segment>, index: nat, below: bool, k: nat)
    requires Replayed(c, segs).Some? && k <= |segs|
    ensures Replayed(c, segs[..k]).Some? && Replayed(c, segs[k..]).Some?
    ensures Kept(Replayed(c, segs[k..]).value, index, below) == Kept(Replayed(c, segs).value, index, below)
       <==> Kept(Replayed(c, segs[..k]).value, index, below) == []
  {
    assert segs[..k] + segs[k..] == segs;
    ReplayedBoth(c, segs[..k], segs[k..]);
    KeptBoth(Replayed(c, segs[..k]).value, Replayed(c, segs[k..]).value, index, below);
  }

  lemma CutOffRewriting(c: Codec, keep: seq<Entry>, first: nat, n: nat)
    requires Sound(c) && Short(c, keep) && n <= |SegmentBytes(c, keep)|
    ensures var left := [Segment(first, SegmentBytes(c, keep)[..n])];
            Replayed(c, left) == Some(keep[..Whole(c, keep, n)])
  {
    var left := [Segment(first, SegmentBytes(c, keep)[..n])];
    TornSegment(c, keep, n);
    assert left[..0] == [];
    PrependNothing(ReadRecords(c, left[0].bytes));
  }

  /**
   A restart after the crash reads the log, and finds all the truncation was to keep exactly if nothing of it was in a
   file already removed, or not yet in the new one.
   */
  lemma CutOffTruncationIff(c: Codec, segs: seq<Segment>, index: nat, below: bool, first: nat, at: Stage)
    requires Sound(c) && Replayed(c, segs).Some? && Short(c, Kept(Replayed(c, segs).value, index, below))
    requires Reached(c, segs, Kept(Replayed(c, segs).value, index, below), at)
    ensures var keep := Kept(Replayed(c, segs).value, index, below);
            var read := Replayed(c, LeftOnDisk(c, segs, keep, first, at));
            && read.Some?
            && (Kept(read.value, index, below) == keep <==> NothingLost(c, segs, keep, index, below, at))
  {
    var keep := Kept(Replayed(c, segs).value, index, below);
    match at
    case Removing(k) => CutOffRemoval(c, segs, index, below, k);
    case Rewriting(n) =>
      CutOffRewriting(c, keep, first, n);
      AllWhole(c, keep, n);
      KeptTwice(Replayed(c, segs).value, index, below);
      KeptPrefix(keep, index, below, Whole(c, keep, n));
  }

  lemma KeptPrefix(keep: seq<Entry>, index: nat, below: bool, k: nat)
    requires Kept(keep, index, below) == keep && k <= |keep|
    ensures Kept(keep[..k], index, below) == keep <==> k == |keep|
  {
    assert k == |keep| ==> keep[..k] == keep;
    KeptShorter(keep[..k], index, below);
  }

  lemma {:induction false} KeptShorter(es: seq<Entry>, index: nat, below: bool)
    ensures |Kept(es, index, below)| <= |es|
  {
    if es != [] {
      KeptShorter(es[..|es| - 1], index, below);
    }
  }

  /** With the last file gone and nothing written, whatever there was to keep is lost. */
  lemma RemovalLosesAll(c: Codec, segs: seq<Segment>, index: nat, below: bool)
    requires Replayed(c, segs).Some? && Kept(Replayed(c, segs).value, index, below) != []
    ensures var keep := Kept(Replayed(c, segs).value, index, below);
            && Replayed(c, LeftOnDisk(c, segs, keep, 1, Removing(|segs|))) == Some([])
            && !NothingLost(c, segs, keep, index, below, Removing(|segs|))
  {
    assert segs[|segs|..] == [] && segs[..|segs|] == segs;
  }
}
