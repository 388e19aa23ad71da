/**
 The write-ahead log as an object over its directory of segment files. A file is what it is on disk, its bytes. Any mix
 of appends, segment rolls, truncations at both ends and reopenings is proved to do to the replayed entries what the
 same calls do to a plain sequence.
 */
module WalLog {

  import opened Wrappers
  import opened Bytes
  import opened Encoding
  import opened RaftTypes
  import opened RaftSpec
  import opened Wal

  /** A segment file: the number in its name and its bytes. */
  datatype Segment = Segment(first: nat, bytes: Bytes)

  /** In the order of the file names. */
  ghost predicate Ascending(segs: seq<Segment>) {
    forall i, j :: 0 <= i < j < |segs| ==> segs[i].first < segs[j].first
  }

  /** All entries, in the order of the file names; none if some intact record does not parse. */
  function Replayed(c: Codec, segs: seq<Segment>): Option<seq<Entry>> {
    if segs == [] then Some([]) else
    match Replayed(c, segs[..|segs| - 1])
    case None => None
    case Some(es) => Prepend(es, ReadRecords(c, segs[|segs| - 1].bytes))
  }

  function RecordSize(c: Codec, e: Entry): nat { HEADER_SIZE + |c.marshal(e)| }

  function LastIndexOf(es: seq<Entry>, otherwise: nat): nat { if es == [] then otherwise else es[|es| - 1].index }

  // ---------------------------------------------------------------- what the calls do, on values

  /** The replayed entries, the number and the size of the segment being written, and the last index. */
  datatype LogState = LogState(entries: seq<Entry>, first: nat, size: nat, last: nat)

  predicate Rolls(c: Codec, size: nat, e: Entry) { size + RecordSize(c, e) > MAX_SEGMENT_SIZE }

  /** The entry can be written behind all others: if that takes a new segment, its name comes after the current one. */
  ghost predicate Room(c: Codec, st: LogState, e: Entry) {
    Fits(|c.marshal(e)|) && (Rolls(c, st.size, e) ==> e.index > st.first)
  }

  function Appended(c: Codec, st: LogState, e: Entry): LogState {
    if Rolls(c, st.size, e) then LogState(st.entries + [e], e.index, RecordSize(c, e), e.index)
    else LogState(st.entries + [e], st.first, st.size + RecordSize(c, e), e.index)
  }

  function AppendedAll(c: Codec, st: LogState, es: seq<Entry>): LogState {
    if es == [] then st else Appended(c, AppendedAll(c, st, es[..|es| - 1]), es[|es| - 1])
  }

  ghost predicate Takes(c: Codec, st: LogState, es: seq<Entry>) {
    es == [] || (Takes(c, st, es[..|es| - 1]) && Room(c, AppendedAll(c, st, es[..|es| - 1]), es[|es| - 1]))
  }

  function Rewritten(c: Codec, keep: seq<Entry>, first: nat, last: nat): LogState {
    LogState(keep, first, |SegmentBytes(c, keep)|, LastIndexOf(keep, last))
  }

  datatype Op = Append(batch: seq<Entry>) | Suffix(keepIndex: nat) | Prefix(discardIndex: nat) | Reopen

  function After(c: Codec, st: LogState, op: Op): LogState {
    match op
    case Append(es) => AppendedAll(c, st, es)
    case Suffix(k) => Rewritten(c, KeepUpTo(st.entries, k), 1, 0)
    case Prefix(d) => Rewritten(c, KeepAbove(st.entries, d), d + 1, d)
    case Reopen => st.(last := if st.size == 0 then 0 else st.last)
  }

  ghost predicate Allows(c: Codec, st: LogState, op: Op) { op.Append? ==> Takes(c, st, op.batch) }

  function AfterAll(c: Codec, st: LogState, ops: seq<Op>): LogState {
    if ops == [] then st else After(c, AfterAll(c, st, ops[..|ops| - 1]), ops[|ops| - 1])
  }

  ghost predicate AllowsAll(c: Codec, st: LogState, ops: seq<Op>) {
    ops == [] || (AllowsAll(c, st, ops[..|ops| - 1]) && Allows(c, AfterAll(c, st, ops[..|ops| - 1]), ops[|ops| - 1]))
  }

  // ---------------------------------------------------------------- the same on a plain sequence

  function PlainAfter(es: seq<Entry>, op: Op): seq<Entry> {
    match op
    case Append(batch) => es + batch
    case Suffix(k) => KeepUpTo(es, k)
    case Prefix(d) => KeepAbove(es, d)
    case Reopen => es
  }

  function PlainAll(es: seq<Entry>, ops: seq<Op>): seq<Entry> {
    if ops == [] then es else PlainAfter(PlainAll(es, ops[..|ops| - 1]), ops[|ops| - 1])
  }

  // ---------------------------------------------------------------- how large the files get

  /** Every file the first directory does not have just so keeps to the limit. */
  ghost predicate WithinLimit(before: seq<Segment>, after: seq<Segment>) {
    forall i :: 0 <= i < |after| ==> after[i] in before || |after[i].bytes| <= MAX_SEGMENT_SIZE
  }

  ghost predicate AllSmall(c: Codec, es: seq<Entry>) {
    forall i :: 0 <= i < |es| ==> RecordSize(c, es[i]) <= MAX_SEGMENT_SIZE
  }

  lemma WithinLimitOn(a: seq<Segment>, b: seq<Segment>, c: seq<Segment>)
    requires WithinLimit(a, b) && WithinLimit(b, c)
    ensures WithinLimit(a, c)
  {
    forall i | 0 <= i < |c| ensures c[i] in a || |c[i].bytes| <= MAX_SEGMENT_SIZE {
      if c[i] in b {
        var j :| 0 <= j < |b| && b[j] == c[i];
      }
    }
  }

  /** Records that fit a file never make the current one outgrow the limit. */
  lemma {:induction false} AppendedWithinLimit(c: Codec, st: LogState, es: seq<Entry>)
    requires st.size <= MAX_SEGMENT_SIZE && AllSmall(c, es)
    ensures AppendedAll(c, st, es).size <= MAX_SEGMENT_SIZE
  {
    if es != [] {
      AppendedWithinLimit(c, st, es[..|es| - 1]);
    }
  }

  lemma {:induction false} BytesOfLast(c: Codec, es: seq<Entry>)
    requires es != []
    ensures |SegmentBytes(c, es)| == |SegmentBytes(c, es[..|es| - 1])| + RecordSize(c, es[|es| - 1])
  {
    if |es| > 1 {
      BytesOfLast(c, es[1..]);
      assert es[1..][..|es| - 2] == es[..|es| - 1][1..];
    } else {
      assert es[..0] == [] && es[1..] == [];
    }
  }

  /** A batch of new entries goes to the current file as a whole exactly if it fits there. */
  lemma {:induction false} StaysInFileIff(c: Codec, st: LogState, es: seq<Entry>)
    requires Rising(es) && (es != [] ==> es[0].index > st.first)
    ensures var st' := AppendedAll(c, st, es);
            && (st'.first == st.first <==> es == [] || st.size + |SegmentBytes(c, es)| <= MAX_SEGMENT_SIZE)
            && (st'.first == st.first ==> st'.size == st.size + |SegmentBytes(c, es)|)
            && st.first <= st'.first && (es != [] ==> st'.first <= es[|es| - 1].index)
  {
    if es != [] {
      var n := |es| - 1;
      StaysInFileIff(c, st, es[..n]);
      BytesOfLast(c, es);
    }
  }

  lemma {:induction false} AppendedEntries(c: Codec, st: LogState, es: seq<Entry>)
    ensures AppendedAll(c, st, es).entries == st.entries + es
  {
    if es != [] {
      var n := |es| - 1;
      AppendedEntries(c, st, es[..n]);
      assert es == es[..n] + [es[n]];
    }
  }

  /** Segments do not show: the entries fare as those of a plain sequence. */
  lemma {:induction false} EntriesArePlain(c: Codec, st: LogState, ops: seq<Op>)
    ensures AfterAll(c, st, ops).entries == PlainAll(st.entries, ops)
  {
    if ops != [] {
      var n := |ops| - 1;
      EntriesArePlain(c, st, ops[..n]);
      if ops[n].Append? {
        AppendedEntries(c, AfterAll(c, st, ops[..n]), ops[n].batch);
      }
    }
  }

  // ---------------------------------------------------------------- what a caller has to see to

  ghost predicate Rising(es: seq<Entry>) { forall i, j :: 0 <= i < j < |es| ==> es[i].index < es[j].index }

  function NextAfter(es: seq<Entry>, next: nat): nat { if es == [] then next else es[|es| - 1].index + 1 }

  /** The first index that has not been used, judging by the entries and the operation alone. */
  function NextFree(es: seq<Entry>, next: nat, op: Op): nat {
    match op
    case Append(batch) => NextAfter(batch, next)
    case Suffix(k) => NextAfter(KeepUpTo(es, k), 1)
    case Prefix(d) => NextAfter(KeepAbove(es, d), d + 1)
    case Reopen => next
  }

  function NextFreeAll(es: seq<Entry>, next: nat, ops: seq<Op>): nat {
    if ops == [] then next else
    NextFree(PlainAll(es, ops[..|ops| - 1]), NextFreeAll(es, next, ops[..|ops| - 1]), ops[|ops| - 1])
  }

  ghost predicate SmallEnough(c: Codec, e: Entry) { Fits(|c.marshal(e)|) && RecordSize(c, e) <= MAX_SEGMENT_SIZE }

  /** A fresh tail: increasing indexes that have not been used, and records that fit a segment. */
  ghost predicate FreshTail(c: Codec, next: nat, es: seq<Entry>) {
    && Rising(es) && (es != [] ==> es[0].index >= next)
    && forall i :: 0 <= i < |es| ==> SmallEnough(c, es[i])
  }

  ghost predicate Fresh(c: Codec, next: nat, op: Op) { op.Append? ==> FreshTail(c, next, op.batch) }

  ghost predicate FreshAll(c: Codec, es: seq<Entry>, next: nat, ops: seq<Op>) {
    ops == [] || (FreshAll(c, es, next, ops[..|ops| - 1])
                  && Fresh(c, NextFreeAll(es, next, ops[..|ops| - 1]), ops[|ops| - 1]))
  }

  ghost predicate Numbered(es: seq<Entry>) { forall i :: 0 <= i < |es| ==> es[i].index >= 1 }

  /** The current segment is named for no later entry than it holds, and `next` comes after all. */
  ghost predicate Neat(st: LogState, next: nat) {
    Numbered(st.entries) && 1 <= st.first <= next && (st.size > 0 ==> st.first <= st.last < next)
  }

  lemma AppendedNeat(c: Codec, st: LogState, next: nat, e: Entry)
    requires Neat(st, next) && e.index >= next && SmallEnough(c, e)
    ensures Room(c, st, e) && Neat(Appended(c, st, e), e.index + 1)
  {
  }

  lemma {:induction false} FreshTailTaken(c: Codec, st: LogState, next: nat, es: seq<Entry>)
    requires Neat(st, next) && FreshTail(c, next, es)
    ensures Takes(c, st, es) && Neat(AppendedAll(c, st, es), NextAfter(es, next))
  {
    if es != [] {
      var n := |es| - 1;
      FreshTailTaken(c, st, next, es[..n]);
      AppendedNeat(c, AppendedAll(c, st, es[..n]), NextAfter(es[..n], next), es[n]);
    }
  }

  lemma KeptNumbered(es: seq<Entry>, keep: seq<Entry>, bound: nat, below: bool)
    requires Numbered(es) && keep == if below then KeepUpTo(es, bound) else KeepAbove(es, bound)
    ensures Numbered(keep) && (keep != [] ==> (keep[|keep| - 1].index <= bound <==> below))
  {
    forall i | 0 <= i < |keep| ensures keep[i].index >= 1 && (keep[i].index <= bound <==> below) {
      KeptFrom(es, bound, below, keep[i]);
      var j :| 0 <= j < |es| && es[j] == keep[i];
    }
  }

  lemma FreshKeepsNeat(c: Codec, st: LogState, next: nat, op: Op)
    requires Neat(st, next) && Fresh(c, next, op)
    ensures Allows(c, st, op) && Neat(After(c, st, op), NextFree(st.entries, next, op))
  {
    match op
    case Append(es) => FreshTailTaken(c, st, next, es);
    case Suffix(k) => KeptNumbered(st.entries, KeepUpTo(st.entries, k), k, true);
    case Prefix(d) => KeptNumbered(st.entries, KeepAbove(st.entries, d), d, false);
    case Reopen =>
  }

  /** A caller that only ever appends fresh tails never runs into a segment of the wrong name. */
  lemma {:induction false} FreshAllAllowed(c: Codec, st: LogState, next: nat, ops: seq<Op>)
    requires Neat(st, next) && FreshAll(c, st.entries, next, ops)
    ensures AllowsAll(c, st, ops) && Neat(AfterAll(c, st, ops), NextFreeAll(st.entries, next, ops))
  {
    if ops != [] {
      var n := |ops| - 1;
      FreshAllAllowed(c, st, next, ops[..n]);
      EntriesArePlain(c, st, ops[..n]);
      FreshKeepsNeat(c, AfterAll(c, st, ops[..n]), NextFreeAll(st.entries, next, ops[..n]), ops[n]);
    }
  }

  // ---------------------------------------------------------------- segments

  function Written(segs: seq<Segment>, k: nat, more: Bytes): seq<Segment>
    requires k < |segs|
  {
    segs[k := Segment(segs[k].first, segs[k].bytes + more)]
  }

  lemma NewSegment(c: Codec, segs: seq<Segment>, first: nat, bytes: Bytes)
    ensures Replayed(c, segs + [Segment(first, bytes)]) ==
      match Replayed(c, segs) case None => None case Some(es) => Prepend(es, ReadRecords(c, bytes))
  {
    assert (segs + [Segment(first, bytes)])[..|segs|] == segs;
  }

  /** Bytes written behind the last segment, seen from the whole directory. */
  lemma WrittenLast(c: Codec, segs: seq<Segment>, more: Bytes)
    requires segs != []
    ensures var n := |segs| - 1;
            Replayed(c, Written(segs, n, more)) ==
              match Replayed(c, segs[..n])
              case None => None
              case Some(es) => Prepend(es, ReadRecords(c, segs[n].bytes + more))
  {
    var n := |segs| - 1;
    assert Written(segs, n, more)[..n] == segs[..n];
  }

  lemma ReadableParts(c: Codec, segs: seq<Segment>)
    requires segs != [] && Replayed(c, segs).Some?
    ensures var n := |segs| - 1;
            && Replayed(c, segs[..n]).Some? && ReadRecords(c, segs[n].bytes).Some?
            && Replayed(c, segs).value == Replayed(c, segs[..n]).value + ReadRecords(c, segs[n].bytes).value
  {
  }

  lemma PrependIff(before: seq<Entry>, es: seq<Entry>, more: seq<Entry>, read: Option<seq<Entry>>)
    ensures Prepend(before, read) == Some((before + es) + more) <==> read == Some(es + more)
    ensures read == Some(es) ==> Prepend(before, read) == Some(before + es)
  {
    assert (before + es) + more == before + (es + more);
    if read.Some? && before + read.value == before + (es + more) {
      assert (before + read.value)[|before|..] == read.value && (before + (es + more))[|before|..] == es + more;
    }
  }

  /**
   Records written to the last file of a readable directory are replayed behind all others exactly if that file has
   no torn tail; with a torn tail they are not replayed at all.
   */
  lemma ReplayedBehindIff(c: Codec, segs: seq<Segment>, more: seq<Entry>)
    requires Sound(c) && Short(c, more) && segs != [] && Replayed(c, segs).Some?
    requires Caught(c, Unread(c, segs[|segs| - 1].bytes), SegmentBytes(c, more))
    ensures var segs' := Written(segs, |segs| - 1, SegmentBytes(c, more));
            var torn := Unread(c, segs[|segs| - 1].bytes) != [];
            && (Replayed(c, segs') == Some(Replayed(c, segs).value + more) <==> !torn || more == [])
            && (torn ==> Replayed(c, segs') == Replayed(c, segs))
  {
    var n := |segs| - 1;
    ReadableParts(c, segs);
    WrittenLast(c, segs, SegmentBytes(c, more));
    ReadBackIff(c, segs[n].bytes, more);
    PrependIff(Replayed(c, segs[..n]).value, ReadRecords(c, segs[n].bytes).value, more,
               ReadRecords(c, segs[n].bytes + SegmentBytes(c, more)));
  }

  /** A crash that cuts off the last file anywhere loses entries at the end only. */
  lemma CrashKeepsPrefix(c: Codec, segs: seq<Segment>, n: nat)
    requires segs != [] && Replayed(c, segs).Some? && n <= |segs[|segs| - 1].bytes|
    ensures var last := |segs| - 1;
            var cut := segs[last := Segment(segs[last].first, segs[last].bytes[..n])];
            && Replayed(c, cut).Some? && Replayed(c, segs[..last]).Some?
            && Replayed(c, segs[..last]).value <= Replayed(c, cut).value <= Replayed(c, segs).value
  {
    var last := |segs| - 1;
    var cut := segs[last := Segment(segs[last].first, segs[last].bytes[..n])];
    ReadableParts(c, segs);
    assert cut[..last] == segs[..last];
    CutReadsPrefix(c, segs[last].bytes, n);
  }

  /** One record behind a clean file. */
  lemma OneMore(c: Codec, b: Bytes, e: Entry)
    requires Sound(c) && Fits(|c.marshal(e)|) && ReadRecords(c, b).Some? && Unread(c, b) == []
    ensures ReadRecords(c, b + Record(c, e)) == Some(ReadRecords(c, b).value + [e]) && Unread(c, b + Record(c, e)) == []
  {
    var rec := Record(c, e);
    ReadAcross(c, b, rec);
    UnreadAcross(c, b, rec);
    assert [] + rec == rec && rec + [] == rec;
    FramedRoundTrip(c, c.marshal(e), []);
    ReadOne(c, e, []);
    assert [e] + [] == [e];
  }

  lemma {:induction false} UnreadAcross(c: Codec, b: Bytes, more: Bytes)
    ensures Unread(c, b + more) == Unread(c, Unread(c, b) + more)
    decreases |b|
  {
    if Payload(c, b).Some? {
      PayloadExtends(c, b, more);
      UnreadAcross(c, b[HEADER_SIZE + |Payload(c, b).value|..], more);
    }
  }

  lemma {:induction false} RecordsGrow(c: Codec, es: seq<Entry>, e: Entry)
    ensures SegmentBytes(c, es + [e]) == SegmentBytes(c, es) + Record(c, e)
    decreases |es|
  {
    var rec := Record(c, e);
    if es == [] {
      assert [e][1..] == [] && rec + [] == [] + rec;
    } else {
      assert (es + [e])[1..] == es[1..] + [e];
      RecordsGrow(c, es[1..], e);
      Assoc(Record(c, es[0]), SegmentBytes(c, es[1..]), rec);
    }
  }

  /** Where a segment of this number goes in the order of names, unless it exists. */
  method Place(segs: seq<Segment>, first: nat) returns (pos: nat, free: bool)
    requires Ascending(segs)
    ensures pos <= |segs| && (free <==> !Taken(segs, first))
    ensures forall i :: 0 <= i < pos ==> segs[i].first < first
    ensures free ==> forall i :: pos <= i < |segs| ==> segs[i].first > first
  {
    pos := 0;
    while pos < |segs| && segs[pos].first < first
      invariant 0 <= pos <= |segs| && forall i :: 0 <= i < pos ==> segs[i].first < first
    {
      pos := pos + 1;
    }
    free := pos == |segs| || segs[pos].first != first;
  }

  /** There is a file of this name. */
  ghost predicate Taken(segs: seq<Segment>, first: nat) { exists i :: 0 <= i < |segs| && segs[i].first == first }

  /** Reads all segments back from their bytes, in the order of names. */
  method ReadSegments(c: Codec, segs: seq<Segment>) returns (entries: Option<seq<Entry>>)
    ensures entries == Replayed(c, segs)
  {
    var all: seq<Entry> := [];
    var i := 0;
    while i < |segs|
      invariant 0 <= i <= |segs| && Replayed(c, segs[..i]) == Some(all)
    {
      var read := ReadSegment(c, segs[i].bytes);
      assert segs[..i + 1][..i] == segs[..i];
      if read.None? {
        StaysUnreadable(c, segs, i + 1, |segs|);
        assert segs[..|segs|] == segs;
        return None;
      }
      all := all + read.value;
      i := i + 1;
    }
    assert segs[..i] == segs;
    entries := Some(all);
  }

  lemma {:induction false} StaysUnreadable(c: Codec, segs: seq<Segment>, i: nat, j: nat)
    requires i <= j <= |segs| && Replayed(c, segs[..i]) == None
    ensures Replayed(c, segs[..j]) == None
  {
    if i < j {
      StaysUnreadable(c, segs, i, j - 1);
      assert segs[..j][..j - 1] == segs[..j - 1];
    }
  }

  // ---------------------------------------------------------------- filtering

  method Filter(es: seq<Entry>, bound: nat, below: bool) returns (keep: seq<Entry>)
    ensures keep == if below then KeepUpTo(es, bound) else KeepAbove(es, bound)
  {
    keep := [];
    var i := 0;
    while i < |es|
      invariant 0 <= i <= |es|
      invariant keep == if below then KeepUpTo(es[..i], bound) else KeepAbove(es[..i], bound)
    {
      assert es[..i + 1][..i] == es[..i];
      if (es[i].index <= bound) == below {
        keep := keep + [es[i]];
      }
      i := i + 1;
    }
    assert es[..i] == es;
  }

  /** Every kept entry is an entry, on the right side of the bound. */
  lemma {:induction false} KeptFrom(es: seq<Entry>, bound: nat, below: bool, e: Entry)
    requires e in if below then KeepUpTo(es, bound) else KeepAbove(es, bound)
    ensures e in es && (e.index <= bound <==> below)
  {
    var n := |es| - 1;
    if e != es[n] {
      KeptFrom(es[..n], bound, below, e);
    } else if (es[n].index <= bound) != below {
      KeptFrom(es[..n], bound, below, e);
    }
  }

  lemma KeptShort(c: Codec, es: seq<Entry>, keep: seq<Entry>, bound: nat, below: bool)
    requires Short(c, es) && keep == if below then KeepUpTo(es, bound) else KeepAbove(es, bound)
    ensures Short(c, keep)
  {
    forall i | 0 <= i < |keep| ensures Fits(|c.marshal(keep[i])|) {
      KeptFrom(es, bound, below, keep[i]);
      var j :| 0 <= j < |es| && es[j] == keep[i];
    }
  }

  // ---------------------------------------------------------------- the log

  /** All can be read, and the last file has no torn tail. */
  ghost predicate Clean(c: Codec, segs: seq<Segment>) {
    segs != [] && Replayed(c, segs).Some? && Unread(c, segs[|segs| - 1].bytes) == []
  }

  /** A clean last file that has bytes ends with a record. */
  ghost predicate Tied(c: Codec, segs: seq<Segment>, last: nat) {
    segs != [] && segs[|segs| - 1].bytes != [] ==>
      && Replayed(c, segs).Some? && ReadRecords(c, segs[|segs| - 1].bytes).Some?
      && last == LastIndexOf(ReadRecords(c, segs[|segs| - 1].bytes).value, 0)
  }

  /** Clean, and every entry can be written again. */
  ghost predicate Settled(c: Codec, segs: seq<Segment>) { Clean(c, segs) && Short(c, Replayed(c, segs).value) }

  lemma AppendsLast(c: Codec, segs: seq<Segment>, e: Entry)
    requires Sound(c) && Fits(|c.marshal(e)|) && Settled(c, segs)
    ensures var segs' := Written(segs, |segs| - 1, Record(c, e));
            Settled(c, segs') && Replayed(c, segs') == Some(Replayed(c, segs).value + [e]) && Tied(c, segs', e.index)
  {
    var n := |segs| - 1;
    ReadableParts(c, segs);
    WrittenLast(c, segs, Record(c, e));
    OneMore(c, segs[n].bytes, e);
    assert Replayed(c, segs[..n]).value + (ReadRecords(c, segs[n].bytes).value + [e])
        == (Replayed(c, segs[..n]).value + ReadRecords(c, segs[n].bytes).value) + [e];
  }

  lemma RollsClean(c: Codec, segs: seq<Segment>, first: nat)
    requires Settled(c, segs)
    ensures Settled(c, segs + [Segment(first, [])]) && Replayed(c, segs + [Segment(first, [])]) == Replayed(c, segs)
  {
    NewSegment(c, segs, first, []);
    assert Replayed(c, segs).value + [] == Replayed(c, segs).value;
  }

  function Rolled(c: Codec, segs: seq<Segment>, e: Entry): seq<Segment> { segs + [Segment(e.index, Record(c, e))] }

  lemma RolledLast(c: Codec, segs: seq<Segment>, e: Entry)
    requires Sound(c) && Fits(|c.marshal(e)|) && Settled(c, segs)
    ensures var segs' := Rolled(c, segs, e);
            Settled(c, segs') && Replayed(c, segs') == Some(Replayed(c, segs).value + [e]) && Tied(c, segs', e.index)
  {
    var empty := segs + [Segment(e.index, [])];
    RollsClean(c, segs, e.index);
    AppendsLast(c, empty, e);
    assert [] + Record(c, e) == Record(c, e);
    assert Written(empty, |segs|, Record(c, e)) == Rolled(c, segs, e);
  }

  /** Names in order: a number above the last name is above them all. */
  lemma AboveAll(segs: seq<Segment>, first: nat)
    requires segs != [] && Ascending(segs) && first > segs[|segs| - 1].first
    ensures forall i :: 0 <= i < |segs| ==> segs[i].first < first
  {
  }

  lemma OneSegment(c: Codec, first: nat, es: seq<Entry>)
    requires Sound(c) && Short(c, es)
    ensures var segs := [Segment(first, SegmentBytes(c, es))];
            Replayed(c, segs) == Some(es) && Clean(c, segs) && Tied(c, segs, LastIndexOf(es, 0))
  {
    var b := SegmentBytes(c, es);
    WholeSegment(c, es);
    UnreadOfRecords(c, es, []);
    assert b + [] == b;
    NewSegment(c, [], first, b);
    assert [] + [Segment(first, b)] == [Segment(first, b)] && [] + es == es;
  }

  lemma Resettled(c: Codec, first: nat, keep: seq<Entry>, last: nat)
    requires Sound(c) && Short(c, keep)
    ensures var segs := [Segment(first, SegmentBytes(c, keep))];
            Settled(c, segs) && Tied(c, segs, LastIndexOf(keep, last)) && Replayed(c, segs) == Some(keep)
  {
    OneSegment(c, first, keep);
    NoBytesIff(c, keep);
  }

  lemma NoBytesIff(c: Codec, es: seq<Entry>)
    ensures SegmentBytes(c, es) == [] <==> es == []
  {
  }

  lemma {:induction false} TakesNext(c: Codec, st: LogState, es: seq<Entry>, i: nat)
    requires Takes(c, st, es) && i < |es|
    ensures Room(c, AppendedAll(c, st, es[..i]), es[i])
    ensures AppendedAll(c, st, es[..i + 1]) == Appended(c, AppendedAll(c, st, es[..i]), es[i])
  {
    var n := |es| - 1;
    if i < n {
      TakesNext(c, st, es[..n], i);
      assert es[..n][..i] == es[..i] && es[..n][..i + 1] == es[..i + 1];
    } else {
      assert es[..i + 1] == es;
    }
  }

  lemma WrittenNothing(c: Codec, segs: seq<Segment>, k: nat)
    requires k < |segs|
    ensures Written(segs, k, SegmentBytes(c, [])) == segs
  {
    assert segs[k].bytes + [] == segs[k].bytes;
  }

  lemma WrittenTwice(segs: seq<Segment>, k: nat, a: Bytes, b: Bytes)
    requires k < |segs|
    ensures Written(Written(segs, k, a), k, b) == Written(segs, k, a + b)
  {
    Assoc(segs[k].bytes, a, b);
  }

  lemma {:induction false} PrefixBytes(c: Codec, es: seq<Entry>, i: nat)
    requires i <= |es|
    ensures |SegmentBytes(c, es[..i])| <= |SegmentBytes(c, es)|
    decreases |es| - i
  {
    if i == |es| {
      assert es[..i] == es;
    } else {
      PrefixBytes(c, es, i + 1);
      assert es[..i + 1] == es[..i] + [es[i]];
      RecordsGrow(c, es[..i], es[i]);
    }
  }

  lemma WrittenNext(c: Codec, segs: seq<Segment>, k: nat, es: seq<Entry>, i: nat)
    requires k < |segs| && i < |es|
    ensures Written(Written(segs, k, SegmentBytes(c, es[..i])), k, Record(c, es[i]))
         == Written(segs, k, SegmentBytes(c, es[..i + 1]))
    ensures |SegmentBytes(c, es[..i])| + RecordSize(c, es[i]) == |SegmentBytes(c, es[..i + 1])| <= |SegmentBytes(c, es)|
  {
    assert es[..i + 1] == es[..i] + [es[i]];
    RecordsGrow(c, es[..i], es[i]);
    WrittenTwice(segs, k, SegmentBytes(c, es[..i]), Record(c, es[i]));
    PrefixBytes(c, es, i + 1);
  }

  /** How a call ended. A log that lost its writer does not survive the attempt to write. */
  datatype Outcome = Done | Refused | Panicked

  class WAL {
    const codec: Codec
    var segments: seq<Segment>
    var open: bool                   // there is a file to write to
    var cur: nat                     // the place of the segment being written
    var size: nat
    var lastIndex: nat

    ghost predicate Valid()
      reads this
    {
      Sound(codec) && Ascending(segments) && (open ==> cur < |segments| && size == |segments[cur].bytes|)
    }

    /** What a replay brings back. */
    ghost function Contents(): Option<seq<Entry>>
      reads this
    {
      Replayed(codec, segments)
    }

    /** The segment being written is the last one, and nothing is in the way of writing behind it. */
    ghost predicate Ready()
      reads this
    {
      Valid() && open && cur == |segments| - 1 && Settled(codec, segments) && Tied(codec, segments, lastIndex)
    }

    ghost function State(): LogState
      requires Valid() && open && Contents().Some?
      reads this
    {
      LogState(Contents().value, segments[cur].first, size, lastIndex)
    }

    constructor (codec: Codec, segments: seq<Segment>, lastIndex: nat)
      requires Sound(codec) && Ascending(segments) && segments != []
      ensures Valid() && this.codec == codec && this.segments == segments && this.lastIndex == lastIndex
      ensures open && cur == |segments| - 1
    {
      this.codec, this.segments, this.lastIndex, open := codec, segments, lastIndex, true;
      cur, size := |segments| - 1, |segments[|segments| - 1].bytes|;
    }

    /** Starts a new segment file; fails if there is one of that name. */
    method CreateSegment(first: nat) returns (ok: bool)
      requires Sound(codec) && Ascending(segments)
      modifies this`segments, this`open, this`cur, this`size
      ensures ok ==> Valid() && open && segments[cur] == Segment(first, []) && size == 0
      ensures ok <==> !Taken(old(segments), first)
      ensures ok ==>
                && cur <= |old(segments)|
                && segments == old(segments)[..cur] + [Segment(first, [])] + old(segments)[cur..]
      ensures !ok ==> segments == old(segments) && open == old(open) && cur == old(cur) && size == old(size)
      ensures (forall i :: 0 <= i < |old(segments)| ==> old(segments)[i].first < first) ==>
                segments == old(segments) + [Segment(first, [])] && cur == |old(segments)|
      ensures ok && old(segments) != [] && first < old(segments)[|old(segments)| - 1].first ==> cur < |segments| - 1
    {
      var pos, free := Place(segments, first);
      if !free {
        return false;
      }
      segments := segments[..pos] + [Segment(first, [])] + segments[pos..];
      open, cur, size := true, pos, 0;
      return true;
    }

    method WriteRecord(e: Entry)
      requires Valid() && open
      modifies this`segments, this`size, this`lastIndex
      ensures Valid() && segments == Written(old(segments), cur, Record(codec, e)) && lastIndex == e.index
      ensures size == old(size) + RecordSize(codec, e)
    {
      var data := codec.marshal(e);
      segments := segments[cur := Segment(segments[cur].first, segments[cur].bytes + Framed(codec, data))];
      size := size + (HEADER_SIZE + |data|);
      lastIndex := e.index;
    }

    /** Starts a new segment if the current one would grow too large. */
    method RollIfFull(e: Entry) returns (ok: bool)
      requires Valid() && open
      modifies this`segments, this`open, this`cur, this`size
      ensures Valid() && open
      ensures ok <==> !(Rolls(codec, old(size), e) && Taken(old(segments), e.index))
      ensures !Rolls(codec, old(size), e) || !ok ==> segments == old(segments) && cur == old(cur) && size == old(size)
      ensures WithinLimit(old(segments), segments)
      ensures ok ==> size + RecordSize(codec, e) <= MAX_SEGMENT_SIZE || size == 0
      ensures |segments| > |old(segments)| ==> old(size) + RecordSize(codec, e) > MAX_SEGMENT_SIZE
      ensures ok && Rolls(codec, old(size), e) ==> segments[cur] == Segment(e.index, []) && size == 0
      ensures old(cur) == |old(segments)| - 1 && Rolls(codec, old(size), e) ==>
                if e.index > old(segments)[old(cur)].first
                then ok && segments == old(segments) + [Segment(e.index, [])] && cur == |segments| - 1
                else ok ==> cur < |segments| - 1
    {
      if size + (HEADER_SIZE + |codec.marshal(e)|) <= MAX_SEGMENT_SIZE {
        return true;
      }
      if e.index > segments[|segments| - 1].first {
        AboveAll(segments, e.index);
      }
      ok := CreateSegment(e.index);
    }

    /** One entry: refused exactly if it needs a new file whose name is taken. */
    method WriteOne(e: Entry) returns (ok: bool)
      requires Valid() && open
      modifies this
      ensures Valid() && open
      ensures ok <==> !(Rolls(codec, old(size), e) && Taken(old(segments), e.index))
      ensures ok ==> lastIndex == e.index
      ensures RecordSize(codec, e) <= MAX_SEGMENT_SIZE ==> WithinLimit(old(segments), segments)
      ensures |segments| > |old(segments)| ==> old(size) + RecordSize(codec, e) > MAX_SEGMENT_SIZE
      ensures !ok ==> segments == old(segments) && cur == old(cur) && size == old(size) && lastIndex == old(lastIndex)
      ensures !Rolls(codec, old(size), e) ==>
                && segments == Written(old(segments), old(cur), Record(codec, e)) && cur == old(cur)
                && size == old(size) + RecordSize(codec, e)
      ensures old(cur) == |old(segments)| - 1 && Rolls(codec, old(size), e) ==>
                if e.index > old(segments)[old(cur)].first
                then ok && segments == Rolled(codec, old(segments), e) && cur == |segments| - 1
                  && size == RecordSize(codec, e)
                else ok ==> cur < |segments| - 1
    {
      ok := RollIfFull(e);
      if ok {
        WriteRecord(e);
      }
      assert [] + Record(codec, e) == Record(codec, e);
    }

    /**
     On a log that is ready, an entry comes behind all others exactly if it has room; otherwise it is refused, or its
     file sorts before the last one.
     */
    method AppendOne(e: Entry) returns (ok: bool)
      requires Valid() && open
      modifies this
      ensures Valid() && open
      ensures !Rolls(codec, old(size), e) ==>
                && ok && segments == Written(old(segments), old(cur), Record(codec, e)) && cur == old(cur)
                && size == old(size) + RecordSize(codec, e)
      ensures RecordSize(codec, e) <= MAX_SEGMENT_SIZE ==> WithinLimit(old(segments), segments)
      ensures |segments| > |old(segments)| ==> old(size) + RecordSize(codec, e) > MAX_SEGMENT_SIZE
      ensures old(Ready()) && Room(codec, old(State()), e) ==>
                ok && Ready() && State() == Appended(codec, old(State()), e)
      ensures old(Ready()) && Fits(|codec.marshal(e)|) ==>
                (ok && cur == |segments| - 1 <==> Room(codec, old(State()), e))
    {
      ghost var segs := segments;
      ok := WriteOne(e);
      if Settled(codec, segs) && Fits(|codec.marshal(e)|) {
        AppendsLast(codec, segs, e);
        RolledLast(codec, segs, e);
      }
    }

    /** All of these went to the file that was current. */
    ghost predicate Behind(segs: seq<Segment>, k: nat, es: seq<Entry>)
      requires k < |segs|
      reads this
    {
      && cur == k
      && segments == Written(segs, k, SegmentBytes(codec, es))
      && size == |segs[k].bytes| + |SegmentBytes(codec, es)|
    }

    ghost predicate Has(st: LogState)
      reads this
    {
      Ready() && State() == st
    }

    method AppendNext(entries: seq<Entry>, i: nat, ghost start: LogState, ghost segs: seq<Segment>, ghost k: nat)
        returns (ok: bool)
      requires Valid() && open && i < |entries| && k < |segs|
      modifies this
      ensures Valid() && open
      ensures Takes(codec, start, entries) && old(Has(AppendedAll(codec, start, entries[..i]))) ==>
                ok && Has(AppendedAll(codec, start, entries[..i + 1]))
      ensures |segs[k].bytes| + |SegmentBytes(codec, entries)| <= MAX_SEGMENT_SIZE ==>
              old(Behind(segs, k, entries[..i])) ==>
                ok && Behind(segs, k, entries[..i + 1])
      ensures RecordSize(codec, entries[i]) <= MAX_SEGMENT_SIZE ==> WithinLimit(old(segments), segments)
    {
      if Takes(codec, start, entries) {
        TakesNext(codec, start, entries, i);
      }
      WrittenNext(codec, segs, k, entries, i);
      ok := AppendOne(entries[i]);
    }

    /** Appends the entries, a new file whenever the current one is full. Without a writer the first entry is fatal. */
    method AppendBatch(entries: seq<Entry>) returns (res: Outcome)
      requires Valid()
      modifies this
      ensures Valid() && (res == Panicked <==> !old(open) && entries != [])
      ensures !old(open) || entries == [] ==>
                && segments == old(segments) && open == old(open)
                && cur == old(cur) && size == old(size) && lastIndex == old(lastIndex)
      ensures old(Ready()) && Takes(codec, old(State()), entries) ==>
                res == Done && Has(AppendedAll(codec, old(State()), entries))
      ensures AllSmall(codec, entries) ==> WithinLimit(old(segments), segments)
      ensures old(open) && old(size) + |SegmentBytes(codec, entries)| <= MAX_SEGMENT_SIZE ==>
                res == Done && Behind(old(segments), old(cur), entries)
    {
      if entries == [] {
        if open {
          WrittenNothing(codec, segments, cur);
        }
        return Done;
      }
      if !open {
        return Panicked;
      }
      var ok := AppendOpen(entries);
      res := if ok then Done else Refused;
    }

    method AppendOpen(entries: seq<Entry>) returns (ok: bool)
      requires Valid() && open
      modifies this
      ensures Valid() && open
      ensures old(Ready()) && Takes(codec, old(State()), entries)
          ==> ok && Has(AppendedAll(codec, old(State()), entries))
      ensures AllSmall(codec, entries) ==> WithinLimit(old(segments), segments)
      ensures old(size) + |SegmentBytes(codec, entries)| <= MAX_SEGMENT_SIZE ==>
                ok && Behind(old(segments), old(cur), entries)
    {
      ghost var start := if Ready() then State() else LogState([], 0, 0, 0);
      ghost var fine := Ready() && Takes(codec, start, entries);
      ghost var roomy := size + |SegmentBytes(codec, entries)| <= MAX_SEGMENT_SIZE;
      WrittenNothing(codec, segments, cur);
      var i := 0;
      while i < |entries|
        invariant 0 <= i <= |entries| && Valid() && open
        invariant fine ==> Has(AppendedAll(codec, start, entries[..i]))
        invariant roomy ==> Behind(old(segments), old(cur), entries[..i])
        invariant AllSmall(codec, entries) ==> WithinLimit(old(segments), segments)
      {
        ghost var segs := segments;
        ok := AppendNext(entries, i, start, old(segments), old(cur));
        if AllSmall(codec, entries) {
          WithinLimitOn(old(segments), segs, segments);
        }
        if !ok {
          return;
        }
        i := i + 1;
      }
      assert entries[..i] == entries;
      ok := true;
    }

    method ReadAll() returns (entries: Option<seq<Entry>>)
      requires Valid()
      ensures entries == Contents()
    {
      entries := ReadSegments(codec, segments);
    }

    /** Writes the entries to the one, empty segment, however large that gets. */
    method WriteAll(first: nat, keep: seq<Entry>)
      requires Valid() && open && segments == [Segment(first, [])] && cur == 0
      modifies this`segments, this`size, this`lastIndex
      ensures Valid() && segments == [Segment(first, SegmentBytes(codec, keep))]
      ensures lastIndex == LastIndexOf(keep, old(lastIndex))
    {
      var i := 0;
      while i < |keep|
        invariant 0 <= i <= |keep| && Valid() && segments == [Segment(first, SegmentBytes(codec, keep[..i]))]
        invariant lastIndex == LastIndexOf(keep[..i], old(lastIndex))
      {
        assert keep[..i + 1] == keep[..i] + [keep[i]];
        RecordsGrow(codec, keep[..i], keep[i]);
        WriteRecord(keep[i]);
        i := i + 1;
      }
      assert keep[..i] == keep;
    }

    /** Removes all files and starts a new one. */
    method StartOver(first: nat)
      requires Valid()
      modifies this`segments, this`open, this`cur, this`size
      ensures Valid() && open && segments == [Segment(first, [])] && cur == 0
    {
      segments := [];
      var created := CreateSegment(first);
    }

    /** Removes all files and rewrites from scratch. */
    method Rewrite(first: nat, keep: seq<Entry>)
      requires Valid()
      modifies this
      ensures Valid() && open
      ensures Short(codec, keep) ==> Ready() && State() == Rewritten(codec, keep, first, old(lastIndex))
    {
      ghost var last := lastIndex;
      StartOver(first);
      WriteAll(first, keep);
      if Short(codec, keep) {
        Resettled(codec, first, keep, last);
      }
    }

    /**
     Removes all entries above keepIndex, and whatever could not be read. The writer is closed first; if an
     intact record does not parse, the files stay as they are and there is no writer any more.
     */
    method TruncateSuffix(keepIndex: nat) returns (ok: bool)
      requires Valid()
      modifies this
      ensures Valid() && (ok <==> old(Contents()).Some?) && (open <==> ok)
      ensures !ok ==> segments == old(segments) && lastIndex == old(lastIndex)
      ensures ok && Short(codec, old(Contents()).value) ==>
                Ready() && State() == Rewritten(codec, KeepUpTo(old(Contents()).value, keepIndex), 1, 0)
    {
      open := false;
      var entries := ReadSegments(codec, segments);
      if entries.None? {
        return false;
      }
      var keep := Filter(entries.value, keepIndex, true);
      if Short(codec, entries.value) {
        KeptShort(codec, entries.value, keep, keepIndex, true);
      }
      lastIndex := 0;
      Rewrite(1, keep);
      return true;
    }

    /** Removes all entries up to discardIndex, likewise. */
    method TruncatePrefix(discardIndex: nat) returns (ok: bool)
      requires Valid()
      modifies this
      ensures Valid() && (ok <==> old(Contents()).Some?) && (open <==> ok)
      ensures !ok ==> segments == old(segments) && lastIndex == old(lastIndex)
      ensures ok && Short(codec, old(Contents()).value) ==>
                && Ready()
                && State() == Rewritten(codec, KeepAbove(old(Contents()).value, discardIndex),
                                        discardIndex + 1, discardIndex)
    {
      open := false;
      var entries := ReadSegments(codec, segments);
      if entries.None? {
        return false;
      }
      var keep := Filter(entries.value, discardIndex, false);
      if Short(codec, entries.value) {
        KeptShort(codec, entries.value, keep, discardIndex, false);
      }
      lastIndex := discardIndex;
      Rewrite(discardIndex + 1, keep);
      return true;
    }
  }

  /**
   Opens the log of a directory: a first segment if there is none, else writing resumes at the end of the last file,
   whatever that ends with. Fails if an intact record of that file does not parse.
   */
  method Open(c: Codec, segs: seq<Segment>) returns (w: WAL?)
    requires Sound(c) && Ascending(segs)
    ensures w == null <==> segs != [] && ReadRecords(c, segs[|segs| - 1].bytes).None?
    ensures w != null ==> fresh(w) && w.codec == c && w.Valid() && w.Contents() == Replayed(c, segs)
    ensures w != null ==>
              && w.open && w.cur == |w.segments| - 1
              && w.segments == if segs == [] then [Segment(1, [])] else segs
    ensures w != null ==> (w.Ready() <==> segs == [] || Settled(c, segs))
    ensures segs == [] ==> w.State() == LogState([], 1, 0, 0)
    ensures w != null ==>
              w.lastIndex == if segs == [] then 0 else LastIndexOf(ReadRecords(c, segs[|segs| - 1].bytes).value, 0)
  {
    if segs == [] {
      OneSegment(c, 1, []);
      return new WAL(c, [Segment(1, [])], 0);
    }
    var read := ReadSegment(c, segs[|segs| - 1].bytes);
    if read.None? {
      return null;
    }
    w := new WAL(c, segs, LastIndexOf(read.value, 0));
  }

  /** Opening again the files of a log that is ready. */
  lemma ReopensReady(c: Codec, segs: seq<Segment>, last: nat)
    requires Settled(c, segs) && Tied(c, segs, last)
    ensures ReadRecords(c, segs[|segs| - 1].bytes).Some?
    ensures LastIndexOf(ReadRecords(c, segs[|segs| - 1].bytes).value, 0)
         == if segs[|segs| - 1].bytes == [] then 0 else last
  {
    ReadableParts(c, segs);
  }

  method Execute(w: WAL, op: Op) returns (w': WAL)
    requires w.Ready() && Allows(w.codec, w.State(), op)
    modifies w
    ensures (w' == w || fresh(w')) && w'.codec == w.codec
    ensures w'.Ready() && w'.State() == After(w.codec, old(w.State()), op)
  {
    w' := w;
    match op
    case Append(es) =>
      var res := w.AppendBatch(es);
    case Suffix(k) =>
      var ok := w.TruncateSuffix(k);
    case Prefix(d) =>
      var ok := w.TruncatePrefix(d);
    case Reopen =>
      ReopensReady(w.codec, w.segments, w.lastIndex);
      var again := Open(w.codec, w.segments);
      w' := again;
  }

  /**
   The log refines a plain sequence: whatever the operations, what is replayed after them is what they make of the
   sequence replayed before them, as long as every appended batch is a fresh tail.
   */
  method PerformAll(w: WAL, ops: seq<Op>, ghost next: nat) returns (w': WAL)
    requires w.Ready() && Neat(w.State(), next) && FreshAll(w.codec, w.State().entries, next, ops)
    modifies w
    ensures w'.Ready() && w'.Contents() == Some(PlainAll(old(w.Contents()).value, ops))
    ensures w'.State() == AfterAll(w.codec, old(w.State()), ops)
    ensures Neat(w'.State(), NextFreeAll(old(w.State()).entries, next, ops))
  {
    ghost var start := w.State();
    FreshAllAllowed(w.codec, start, next, ops);
    EntriesArePlain(w.codec, start, ops);
    w' := w;
    var i := 0;
    while i < |ops|
      invariant 0 <= i <= |ops| && (w' == w || fresh(w')) && w'.codec == w.codec
      invariant w'.Ready() && w'.State() == AfterAll(w.codec, start, ops[..i])
    {
      AllowsNext(w.codec, start, ops, i);
      w' := Execute(w', ops[i]);
      i := i + 1;
    }
    assert ops[..i] == ops;
  }

  lemma {:induction false} AllowsNext(c: Codec, st: LogState, ops: seq<Op>, i: nat)
    requires AllowsAll(c, st, ops) && i < |ops|
    ensures Allows(c, AfterAll(c, st, ops[..i]), ops[i])
    ensures AfterAll(c, st, ops[..i + 1]) == After(c, AfterAll(c, st, ops[..i]), ops[i])
  {
    var n := |ops| - 1;
    if i < n {
      AllowsNext(c, st, ops[..n], i);
      assert ops[..n][..i] == ops[..i] && ops[..n][..i + 1] == ops[..i + 1];
    } else {
      assert ops[..i + 1] == ops;
    }
  }

  /**
   Once a truncation has met an intact record that does not parse, the log is lost for writing: the next
   append is fatal, and so is any after another attempt to truncate.
   */
  method FailedTruncationIsFinal(w: WAL, keepIndex: nat, discardIndex: nat, again: bool, entries: seq<Entry>)
      returns (res: Outcome)
    requires w.Valid() && w.Contents().None? && entries != []
    modifies w
    ensures res == Panicked && w.segments == old(w.segments)
  {
    var ok := w.TruncateSuffix(keepIndex);
    if again {
      ok := w.TruncatePrefix(discardIndex);
    }
    res := w.AppendBatch(entries);
  }

  /** Opening again forgets where the log goes on exactly if nothing is left in it but that position. */
  lemma ReopenKeepsPositionIff(c: Codec, st: LogState, d: nat)
    ensures var st' := After(c, st, Prefix(d));
            After(c, st', Reopen).last == st'.last <==> d == 0 || KeepAbove(st.entries, d) != []
  {
    NoBytesIff(c, KeepAbove(st.entries, d));
  }
}
