/**
 A compaction cut off by a crash. The merge is on disk under the highest number, and the files of the merged
 tables are removed one by one, the newest first. A start in between reads the merge and the tables that are left.
 */
module LsmCrash {

  import opened Bytes
  import opened Encoding
  import opened Memtable
  import opened Merge
  import opened SSTable
  import opened Layers
  import opened LsmEngine

  /** No key that one of the first k tables deletes is live in the tables behind them. */
  ghost predicate NoneRevived(tables: seq<seq<MemEntry>>, k: nat)
    requires k <= |tables|
  {
    forall key :: IsDead(CellIn(Overlay(OldestFirst(tables[..k])), key)) ==>
      Shows(Overlay(OldestFirst(tables[k..])), key).None?
  }

  lemma {:induction false} OldestOfBoth(a: seq<seq<MemEntry>>, b: seq<seq<MemEntry>>)
    ensures OldestFirst(a + b) == OldestFirst(b) + OldestFirst(a)
  {
    if a == [] {
      assert a + b == b;
    } else {
      assert (a + b)[1..] == a[1..] + b && (a + b)[0] == a[0];
      OldestOfBoth(a[1..], b);
    }
  }

  lemma OverlayOfBoth(a: seq<seq<MemEntry>>, b: seq<seq<MemEntry>>)
    ensures Overlay(OldestFirst(a + b)) == Overlay(OldestFirst(b)) + Overlay(OldestFirst(a))
  {
    OldestOfBoth(a, b);
    OverlayConcat(OldestFirst(b), OldestFirst(a));
  }

  lemma OverlaySplits(tables: seq<seq<MemEntry>>, k: nat)
    requires k <= |tables|
    ensures Overlay(OldestFirst(tables)) == Overlay(OldestFirst(tables[k..])) + Overlay(OldestFirst(tables[..k]))
  {
    assert tables[..k] + tables[k..] == tables;
    OverlayOfBoth(tables[..k], tables[k..]);
  }

  /** A key the merge does not have shows again exactly if it was deleted above and is live below. */
  lemma RevivedIff(low: map<Key, Cell>, up: map<Key, Cell>, merged: map<Key, Cell>, key: Key)
    requires Shows(merged, key) == Shows(low + up, key) && (key in merged <==> Shows(merged, key).Some?)
    ensures Shows(low + merged, key) == Shows(merged, key)
       <==> !(IsDead(CellIn(up, key)) && Shows(low, key).Some?)
  {
  }

  lemma NothingRevivedIff(low: map<Key, Cell>, up: map<Key, Cell>, merged: map<Key, Cell>)
    requires forall key :: Shows(merged, key) == Shows(low + up, key) && (key in merged <==> Shows(merged, key).Some?)
    ensures LiveMap(low + merged) == LiveMap(merged)
       <==> forall key :: IsDead(CellIn(up, key)) ==> Shows(low, key).None?
  {
    SameShows(low + merged, merged);
    forall key ensures Shows(low + merged, key) == Shows(merged, key)
                  <==> !(IsDead(CellIn(up, key)) && Shows(low, key).Some?)
    {
      RevivedIff(low, up, merged, key);
    }
  }

  /**
   After k of the tables were removed, newest first, the merge and the rest stand for the data of all of them exactly if
   what is removed deletes nothing that is left.
   */
  lemma CutOffRemovalIff(tables: seq<seq<MemEntry>>, merged: seq<MemEntry>, k: nat)
    requires k <= |tables| && NoTombstones(merged) && Sorted(merged)
    requires LiveMap(View(merged)) == LiveMap(Overlay(OldestFirst(tables)))
    ensures DataOf([merged] + tables[k..], [], []) == DataOf(tables, [], []) <==> NoneRevived(tables, k)
  {
    var low, up := Overlay(OldestFirst(tables[k..])), Overlay(OldestFirst(tables[..k]));
    FlushedOnTop(tables[k..], merged);
    EmptyMemory(tables, []);
    OverlaySplits(tables, k);
    forall key
      ensures Shows(View(merged), key) == Shows(low + up, key)
      ensures key in View(merged) <==> Shows(View(merged), key).Some?
    {
      MergedShows(tables, merged, key);
    }
    NothingRevivedIff(low, up, View(merged));
  }

  /** Before the first removal and after the last one this is so. */
  lemma NoneRevivedAtEnds(tables: seq<seq<MemEntry>>)
    ensures NoneRevived(tables, 0) && NoneRevived(tables, |tables|)
  {
    assert tables[..0] == [] && tables[|tables|..] == [];
  }

  /** Whatever shows again was in one of the tables. */
  lemma RevivedWasThere(tables: seq<seq<MemEntry>>, merged: seq<MemEntry>, k: nat, key: Key)
    requires k <= |tables| && NoTombstones(merged) && Sorted(merged)
    requires LiveMap(View(merged)) == LiveMap(Overlay(OldestFirst(tables)))
    requires key in DataOf([merged] + tables[k..], [], [])
    ensures key in Overlay(OldestFirst(tables))
  {
    FlushedOnTop(tables[k..], merged);
    OverlaySplits(tables, k);
    MergedShows(tables, merged, key);
  }

  lemma OneCell(e: MemEntry)
    ensures View([e]) == map[e.key := if e.kind == KIND_DELETE then Dead else Live(e.value)]
  {
    assert [e][..0] == [];
  }

  lemma NothingLive(es: seq<MemEntry>)
    requires Sorted(es) && NoTombstones(es) && LiveMap(View(es)) == map[]
    ensures es == []
  {
    if es != [] {
      ViewAt(es, 0);
    }
  }

  lemma DeadHides(key: Key, value: Bytes)
    ensures LiveMap(map[key := Live(value)] + map[key := Dead]) == map[]
    ensures LiveMap(map[key := Live(value)]) == map[key := value]
  {
  }

  lemma BackAgain(low: seq<MemEntry>, up: seq<MemEntry>, key: Key, value: Bytes)
    requires View(low) == map[key := Live(value)] && View(up) == map[key := Dead]
    ensures DataOf([up, low], [], []) == map[] && DataOf([[]] + [low], [], []) == map[key := value]
  {
    DeadHides(key, value);
    MergedOnTop(up, low);
    FlushedOnTop([low], []);
    OneTable(low);
    OverlayOne(low);
    assert View(low) + map[] == View(low);
  }

  lemma TablesMerge(tables: seq<seq<MemEntry>>)
    requires AllSorted(tables)
    ensures var merged := Merged(StoredLayers(OldestFirst(tables)));
            && Sorted(merged) && NoTombstones(merged)
            && LiveMap(View(merged)) == LiveMap(Overlay(OldestFirst(tables)))
  {
    OldestSorted(tables);
    StoredSorted(OldestFirst(tables));
    StoredOverlay(OldestFirst(tables));
    MergedMeaning(StoredLayers(OldestFirst(tables)));
  }

  /** A put and a newer tombstone for it: with the tombstone's file gone and the other not yet, the key is back. */
  lemma DeletedKeyComesBack(key: Key, value: Bytes)
    ensures var tables := [[MemEntry(key, [], KIND_DELETE, 2)], [MemEntry(key, value, KIND_PUT, 1)]];
            var merged := Merged(StoredLayers(OldestFirst(tables)));
            DataOf(tables, [], []) == map[] && DataOf([merged] + tables[1..], [], []) == map[key := value]
  {
    var low, up := [MemEntry(key, value, KIND_PUT, 1)], [MemEntry(key, [], KIND_DELETE, 2)];
    OneCell(low[0]);
    OneCell(up[0]);
    BackAgain(low, up, key, value);
    TablesMerge([up, low]);
    EmptyMemory([up, low], []);
    NothingLive(Merged(StoredLayers(OldestFirst([up, low]))));
    assert [up, low][1..] == [low];
  }

  // ---------------------------------------------------------------- the engine

  lemma CompactedMeans(files: Directory, ns: seq<nat>)
    requires AllGood(files) && Present(files, ns)
    ensures LiveMap(View(Compacted(files, ns))) == LiveMap(Overlay(OldestFirst(TablesOf(files, ns))))
  {
    TablesSorted(files, ns);
    TablesMerge(TablesOf(files, ns));
  }

  /** What a compaction that is cut off after k removals leaves on disk. */
  function CutOff(files: Directory, ns: seq<nat>, m: nat, merged: seq<MemEntry>, k: nat): Directory
    requires k <= |ns|
  {
    files[m := merged] - (set n | n in ns[..k])
  }

  lemma LeftOver(ns: seq<nat>, k: nat, n: nat)
    requires k <= |ns| && Falling(ns)
    ensures n in ns[k..] <==> n in ns && n !in ns[..k]
  {
  }

  lemma LeftFalls(ns: seq<nat>, k: nat, m: nat)
    requires k <= |ns| && Falling(ns) && forall n :: n in ns ==> n < m
    ensures Falling([m] + ns[k..])
  {
    var rest := ns[k..];
    forall i | 0 <= i < |rest| ensures rest[i] < m {
      assert rest[i] == ns[k + i] && ns[k + i] in ns;
    }
  }

  /** The numbers that are left, newest first. */
  lemma LeftNumbers(files: Directory, ns: seq<nat>, m: nat, merged: seq<MemEntry>, k: nat, ns': seq<nat>)
    requires k <= |ns| && Falling(ns) && (forall n :: n in files <==> n in ns) && (forall n :: n in ns ==> n < m)
    requires Falling(ns') && forall n :: n in ns' <==> n in CutOff(files, ns, m, merged, k)
    ensures ns' == [m] + ns[k..]
  {
    LeftFalls(ns, k, m);
    forall n ensures n in ns' <==> n in [m] + ns[k..] {
      LeftOver(ns, k, n);
    }
    FallingUnique(ns', [m] + ns[k..]);
  }

  lemma LeftFile(files: Directory, ns: seq<nat>, m: nat, merged: seq<MemEntry>, k: nat, n: nat)
    requires k <= |ns| && Falling(ns) && Present(files, ns) && (forall n :: n in ns ==> n < m) && n in [m] + ns[k..]
    ensures var files' := CutOff(files, ns, m, merged, k);
            n in files' && files'[n] == if n == m then merged else files[n]
  {
    assert n in ns[..k] ==> n in ns;
    LeftOver(ns, k, n);
  }

  lemma CutOffTables(files: Directory, ns: seq<nat>, m: nat, merged: seq<MemEntry>, k: nat)
    requires k <= |ns| && Falling(ns) && Present(files, ns) && forall n :: n in ns ==> n < m
    ensures var files' := CutOff(files, ns, m, merged, k);
            Present(files', [m] + ns[k..]) && TablesOf(files', [m] + ns[k..]) == [merged] + TablesOf(files, ns)[k..]
  {
    var files', left := CutOff(files, ns, m, merged, k), [m] + ns[k..];
    forall n | n in left ensures n in files' {
      LeftFile(files, ns, m, merged, k, n);
    }
    var tables, before := TablesOf(files', left), [merged] + TablesOf(files, ns)[k..];
    forall i | 0 <= i < |left| ensures tables[i] == before[i] {
      LeftFile(files, ns, m, merged, k, left[i]);
      NotTheMerge(ns, m, k, i);
    }
  }

  lemma NotTheMerge(ns: seq<nat>, m: nat, k: nat, i: nat)
    requires k <= |ns| && (forall n :: n in ns ==> n < m) && i < |ns| - k + 1
    ensures ([m] + ns[k..])[i] == if i == 0 then m else ns[k + i - 1]
    ensures i > 0 ==> ([m] + ns[k..])[i] != m
  {
    assert i > 0 ==> ns[k + i - 1] in ns;
  }

  /** An engine started over what such a compaction leaves. */
  method StartCutOff(e: Engine, k: nat) returns (e': Engine)
    requires e.Valid() && e.Tidy() && k <= |e.sstables| && |DataBlock(Compacted(e.files, e.sstables))| < Power(8)
    ensures fresh(e') && e'.Valid() && e'.Tidy()
    ensures e'.Layout() == Shape([Compacted(e.files, e.sstables)] + e.Tables()[k..], [], [])
    ensures e'.Data() == TableData(e.Layout()) <==> NoneRevived(e.Tables(), k)
  {
    var merged := MergeTables(e.hash, e.files, e.sstables);
    var m := e.sstableSeq + 1;
    NewFileGood(e.files, e.sstableSeq, merged);
    e' := new Engine(e.hash, CutOff(e.files, e.sstables, m, merged, k), {});
    CutOffTables(e.files, e.sstables, m, merged, k);
    LeftNumbers(e.files, e.sstables, m, merged, k, e'.sstables);
    CompactedMeans(e.files, e.sstables);
    CutOffRemovalIff(e.Tables(), merged, k);
  }
}
