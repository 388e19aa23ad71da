/** Stacks of tables: what flushing, merging and searching do to what a stack says. */
module Layers {

  import opened Wrappers
  import opened Bytes
  import opened Memtable
  import opened Merge
  import opened SSTable

  lemma MapAssoc(a: map<Key, Cell>, b: map<Key, Cell>, c: map<Key, Cell>)
    ensures (a + b) + c == a + (b + c)
  {
  }

  lemma {:induction false} OverlayConcat(a: seq<seq<MemEntry>>, b: seq<seq<MemEntry>>)
    ensures Overlay(a + b) == Overlay(a) + Overlay(b)
  {
    if b == [] {
      assert a + b == a;
    } else {
      var n := |b| - 1;
      OverlayConcat(a, b[..n]);
      assert (a + b)[..|a| + n] == a + b[..n];
      MapAssoc(Overlay(a), Overlay(b[..n]), View(b[n]));
    }
  }

  lemma OverlayOne(es: seq<MemEntry>)
    ensures Overlay([es]) == View(es)
  {
    assert [es][..0] == [];
  }

  /** A new, empty table on top changes nothing. */
  lemma EmptyOnTop(layers: seq<seq<MemEntry>>)
    ensures Overlay(layers + [[]]) == Overlay(layers)
  {
    OverlayConcat(layers, [[]]);
    OverlayOne([]);
  }

  /** Only the live part of the lower layers shows through the upper ones. */
  lemma LiveThrough(a: map<Key, Cell>, a': map<Key, Cell>, b: map<Key, Cell>)
    requires LiveMap(a) == LiveMap(a')
    ensures LiveMap(a + b) == LiveMap(a' + b)
  {
    forall k ensures k in LiveMap(a + b) <==> k in LiveMap(a' + b) {
      if k !in b {
        assert k in LiveMap(a) <==> k in LiveMap(a');
      }
    }
    forall k | k in LiveMap(a + b) ensures LiveMap(a + b)[k] == LiveMap(a' + b)[k] {
      if k !in b {
        assert k in LiveMap(a) && LiveMap(a)[k] == LiveMap(a')[k];
      }
    }
  }

  /** The engine lists its tables newest first; the merge wants them oldest first. */
  function OldestFirst(tables: seq<seq<MemEntry>>): (r: seq<seq<MemEntry>>)
    ensures |r| == |tables| && forall i :: 0 <= i < |tables| ==> r[|tables| - 1 - i] == tables[i]
  {
    if tables == [] then [] else OldestFirst(tables[1..]) + [tables[0]]
  }

  // ---------------------------------------------------------------- what comes back from disk

  function StoredLayers(layers: seq<seq<MemEntry>>): (r: seq<seq<MemEntry>>)
    ensures |r| == |layers| && forall i :: 0 <= i < |layers| ==> r[i] == AllStored(layers[i])
  {
    if layers == [] then [] else StoredLayers(layers[..|layers| - 1]) + [AllStored(layers[|layers| - 1])]
  }

  lemma {:induction false} StoredView(es: seq<MemEntry>)
    ensures View(AllStored(es)) == View(es)
  {
    if es != [] {
      var n := |es| - 1;
      StoredView(es[..n]);
      assert AllStored(es)[..n] == AllStored(es[..n]);
    }
  }

  lemma {:induction false} StoredOverlay(layers: seq<seq<MemEntry>>)
    ensures Overlay(StoredLayers(layers)) == Overlay(layers)
  {
    if layers != [] {
      var n := |layers| - 1;
      StoredOverlay(layers[..n]);
      StoredView(layers[n]);
      assert StoredLayers(layers)[..n] == StoredLayers(layers[..n]);
    }
  }

  lemma StoredSorted(layers: seq<seq<MemEntry>>)
    requires AllSorted(layers)
    ensures AllSorted(StoredLayers(layers))
  {
    forall i | 0 <= i < |layers| ensures Sorted(AllStored(layers[i])) {
    }
  }

  // ---------------------------------------------------------------- compaction

  /** The merge of all tables, in place of the tables, lets the same data show. */
  lemma MergeKeepsData(tables: seq<seq<MemEntry>>, upper: seq<seq<MemEntry>>)
    requires AllSorted(tables)
    ensures LiveMap(Overlay([Merged(StoredLayers(OldestFirst(tables)))] + upper))
         == LiveMap(Overlay(OldestFirst(tables) + upper))
  {
    var old', stored := OldestFirst(tables), StoredLayers(OldestFirst(tables));
    OldestSorted(tables);
    StoredSorted(old');
    StoredOverlay(old');
    MergedMeaning(stored);
    OverlayOne(Merged(stored));
    OverlayConcat([Merged(stored)], upper);
    OverlayConcat(old', upper);
    LiveThrough(View(Merged(stored)), Overlay(old'), Overlay(upper));
  }

  lemma OldestSorted(tables: seq<seq<MemEntry>>)
    requires AllSorted(tables)
    ensures AllSorted(OldestFirst(tables))
  {
    forall i | 0 <= i < |tables| ensures Sorted(OldestFirst(tables)[i]) {
      assert OldestFirst(tables)[|tables| - 1 - (|tables| - 1 - i)] == tables[|tables| - 1 - i];
    }
  }

  function Shows(m: map<Key, Cell>, key: Key): Option<Bytes> {
    if key in m && m[key].Live? then Some(m[key].value) else None
  }

  lemma ShowsIsLookup(m: map<Key, Cell>, key: Key)
    ensures Shows(m, key) == if key in LiveMap(m) then Some(LiveMap(m)[key]) else None
  {
  }

  /** Everything the middle layer says is hidden above it, or shows below it just so. */
  ghost predicate HiddenOrKnown(low: map<Key, Cell>, mid: map<Key, Cell>, top: map<Key, Cell>) {
    forall k :: k in mid && k !in top ==> Shows(mid, k) == Shows(low, k)
  }

  /** Dropping a middle layer goes unnoticed exactly if everything it says is hidden above or was so below. */
  lemma DropGoesUnnoticedIff(low: map<Key, Cell>, mid: map<Key, Cell>, top: map<Key, Cell>)
    ensures LiveMap(low + top) == LiveMap(low + mid + top) <==> HiddenOrKnown(low, mid, top)
  {
    if HiddenOrKnown(low, mid, top) {
      forall k ensures Shows(low + top, k) == Shows(low + mid + top, k) {
      }
      forall k ensures k in LiveMap(low + top) <==> k in LiveMap(low + mid + top) {
        ShowsIsLookup(low + top, k);
        ShowsIsLookup(low + mid + top, k);
        assert Shows(low + top, k) == Shows(low + mid + top, k);
      }
      forall k | k in LiveMap(low + top) ensures LiveMap(low + top)[k] == LiveMap(low + mid + top)[k] {
        ShowsIsLookup(low + top, k);
        ShowsIsLookup(low + mid + top, k);
        assert Shows(low + top, k) == Shows(low + mid + top, k);
      }
    }
    if LiveMap(low + top) == LiveMap(low + mid + top) {
      forall k | k in mid && k !in top ensures Shows(mid, k) == Shows(low, k) {
        ShowsIsLookup(low + top, k);
        ShowsIsLookup(low + mid + top, k);
      }
    }
  }

  /**
   A flush that completes between the copy and the swap of a compaction is lost from the list of tables. This
   goes unnoticed exactly if what the lost tables say is hidden by the memtables or already so without them.
   */
  lemma LostFlushUnnoticedIff(flushed: seq<seq<MemEntry>>, captured: seq<seq<MemEntry>>, memory: seq<seq<MemEntry>>)
    requires AllSorted(captured)
    ensures LiveMap(Overlay([Merged(StoredLayers(OldestFirst(captured)))] + memory))
         == LiveMap(Overlay(OldestFirst(captured) + OldestFirst(flushed) + memory))
       <==> HiddenOrKnown(Overlay(OldestFirst(captured)), Overlay(OldestFirst(flushed)), Overlay(memory))
  {
    MergeKeepsData(captured, memory);
    OverlayConcat(OldestFirst(captured), memory);
    OverlayConcat(OldestFirst(captured) + OldestFirst(flushed), memory);
    OverlayConcat(OldestFirst(captured), OldestFirst(flushed));
    DropGoesUnnoticedIff(Overlay(OldestFirst(captured)), Overlay(OldestFirst(flushed)), Overlay(memory));
  }

  // ---------------------------------------------------------------- searching from the top

  function CellIn(m: map<Key, Cell>, key: Key): Option<Cell> { if key in m then Some(m[key]) else None }

  /** The first table, newest first, that mentions the key. */
  function FirstHit(tables: seq<seq<MemEntry>>, key: Key): Option<Cell> {
    if tables == [] then None
    else if key in View(tables[0]) then Some(View(tables[0])[key])
    else FirstHit(tables[1..], key)
  }

  lemma {:induction false} FirstHitIsNewest(tables: seq<seq<MemEntry>>, key: Key)
    ensures FirstHit(tables, key) == CellIn(Overlay(OldestFirst(tables)), key)
  {
    if tables != [] {
      FirstHitIsNewest(tables[1..], key);
      OverlayConcat(OldestFirst(tables[1..]), [tables[0]]);
      OverlayOne(tables[0]);
    }
  }

  /** How Engine.Get combines its layers: a tombstone in a memtable reads as if the key were not there. */
  function Searched(active: Option<Cell>, immutable: Option<Cell>, tables: Option<Cell>): Option<Bytes> {
    if active.Some? && active.value.Live? then Some(active.value.value)
    else if immutable.Some? && immutable.value.Live? then Some(immutable.value.value)
    else if tables.Some? && tables.value.Live? then Some(tables.value.value)
    else None
  }

  /** What the newest cell says. */
  function Top(active: Option<Cell>, immutable: Option<Cell>, tables: Option<Cell>): Option<Cell> {
    if active.Some? then active else if immutable.Some? then immutable else tables
  }

  predicate IsLive(c: Option<Cell>) { c.Some? && c.value.Live? }

  predicate IsDead(c: Option<Cell>) { c.Some? && c.value.Dead? }

  /** A tombstone in a memtable covers a live value further down. */
  predicate Uncovered(active: Option<Cell>, immutable: Option<Cell>, tables: Option<Cell>) {
    || (IsDead(active) && (IsLive(immutable) || IsLive(tables)))
    || (active.None? && IsDead(immutable) && IsLive(tables))
  }

  function LiveValue(c: Option<Cell>): Option<Bytes> { if IsLive(c) then Some(c.value.value) else None }

  lemma SearchRightIff(active: Option<Cell>, immutable: Option<Cell>, tables: Option<Cell>)
    ensures Searched(active, immutable, tables) == LiveValue(Top(active, immutable, tables))
       <==> !Uncovered(active, immutable, tables)
  {
  }
}
