/**
 The storage engine: an active memtable, one being flushed, and table files, newest first. Writes, flushes,
 compaction, snapshots and restarts are proved against the plain map the engine stands for.
 */
module LsmEngine {

  import opened Wrappers
  import opened Bytes
  import opened KeyOrder
  import opened Encoding
  import opened Memtable
  import opened Merge
  import opened SSTable
  import opened SnapshotCodec
  import opened Listing
  import opened Layers

  /**
   The directory: for each file number the entries the file was written from. The bytes of a file are the
   TableFile of those entries, and all reading goes through them.
   */
  type Directory = map<nat, seq<MemEntry>>

  ghost predicate Good(es: seq<MemEntry>) { Sorted(es) && Writable(es) && |DataBlock(es)| < Power(8) }

  ghost predicate AllGood(files: Directory) { forall n :: n in files ==> Good(files[n]) }

  ghost predicate Present(files: Directory, ns: seq<nat>) { forall n :: n in ns ==> n in files }

  ghost predicate Falling(ns: seq<nat>) { forall i, j :: 0 <= i < j < |ns| ==> ns[i] > ns[j] }

  ghost predicate UpTo(files: Directory, last: nat) { forall n :: n in files ==> n <= last }

  /** The tables under these numbers. */
  function TablesOf(files: Directory, ns: seq<nat>): (r: seq<seq<MemEntry>>)
    requires Present(files, ns)
    ensures |r| == |ns| && forall i :: 0 <= i < |ns| ==> r[i] == files[ns[i]]
  {
    if ns == [] then [] else [files[ns[0]]] + TablesOf(files, ns[1..])
  }

  // ---------------------------------------------------------------- what writes do to the layers

  /** Writing a cell into the top layer writes it into what the stack says. */
  lemma WriteOnTop(below: seq<seq<MemEntry>>, es: seq<MemEntry>, es': seq<MemEntry>, key: Key, c: Cell)
    requires View(es') == View(es)[key := c]
    ensures Overlay(below + [es']) == Overlay(below + [es])[key := c]
  {
    OverlayConcat(below, [es]);
    OverlayConcat(below, [es']);
    OverlayOne(es);
    OverlayOne(es');
  }

  lemma LiveDelete(m: map<Key, Cell>, key: Key)
    ensures LiveMap(m[key := Dead]) == LiveMap(m) - {key}
  {
  }

  // ---------------------------------------------------------------- reading tables back

  /** Reads one table file. */
  method ReadTable(hash: Hash, es: seq<MemEntry>) returns (entries: seq<MemEntry>)
    requires Good(es)
    ensures entries == AllStored(es)
  {
    TableRoundTrip(hash, es);
    var read := IterateAll(TableFile(hash, es));
    entries := read.value;
  }

  /** Reads the tables, oldest first. */
  method ReadTables(hash: Hash, files: Directory, ns: seq<nat>) returns (inputs: seq<seq<MemEntry>>)
    requires AllGood(files) && Present(files, ns)
    ensures inputs == StoredLayers(OldestFirst(TablesOf(files, ns)))
  {
    inputs := [];
    ghost var tables := TablesOf(files, ns);
    var i := |ns|;
    while i > 0
      invariant 0 <= i <= |ns|
      invariant inputs == StoredLayers(OldestFirst(tables[i..]))
    {
      i := i - 1;
      assert ns[i] in ns;
      var entries := ReadTable(hash, files[ns[i]]);
      assert tables[i..][1..] == tables[i + 1..];
      StoredLayersAppend(OldestFirst(tables[i + 1..]), tables[i]);
      inputs := inputs + [entries];
    }
    assert tables[0..] == tables;
  }

  /** What the tables amount to, as one table. */
  method MergeTables(hash: Hash, files: Directory, ns: seq<nat>) returns (merged: seq<MemEntry>)
    requires AllGood(files) && Present(files, ns)
    ensures merged == Compacted(files, ns) && Sorted(merged) && Writable(merged) && NoTombstones(merged)
  {
    var inputs := ReadTables(hash, files, ns);
    TablesSorted(files, ns);
    OldestSorted(TablesOf(files, ns));
    StoredSorted(OldestFirst(TablesOf(files, ns)));
    StoredTablesWritable(files, ns);
    MergedWritable(inputs);
    merged := MergeEntries(inputs);
  }

  lemma StoredLayersAppend(layers: seq<seq<MemEntry>>, es: seq<MemEntry>)
    ensures StoredLayers(layers + [es]) == StoredLayers(layers) + [AllStored(es)]
  {
    assert (layers + [es])[..|layers|] == layers;
  }

  /** Every entry of the merge is an entry of a layer. */
  lemma {:induction false} MergedFromLayers(layers: seq<seq<MemEntry>>, e: MemEntry)
    requires e in Merged(layers)
    ensures exists i :: 0 <= i < |layers| && e in layers[i]
    decreases Total(layers)
  {
    MinKeyIsFloor(layers);
    var key := MinKey(layers).value;
    AdvanceShrinks(layers, key);
    if e == Newest(layers, key).value {
      NewestFromLayers(layers, key);
    } else {
      MergedFromLayers(Advance(layers, key), e);
      var i :| 0 <= i < |layers| && e in Advance(layers, key)[i];
      assert Advance(layers, key)[i] == Tail(layers[i], key);
      assert e in layers[i];
    }
  }

  lemma {:induction false} NewestFromLayers(layers: seq<seq<MemEntry>>, key: Key)
    requires Newest(layers, key).Some?
    ensures exists i :: 0 <= i < |layers| && Newest(layers, key).value in layers[i]
  {
    var n := |layers| - 1;
    if HeadIs(layers[n], key) {
      assert layers[n][0] in layers[n];
    } else {
      NewestFromLayers(layers[..n], key);
      var i :| 0 <= i < n && Newest(layers[..n], key).value in layers[..n][i];
      assert layers[..n][i] == layers[i];
    }
  }

  ghost predicate AllWritable(layers: seq<seq<MemEntry>>) {
    forall i :: 0 <= i < |layers| ==> Writable(layers[i])
  }

  lemma MergedWritable(layers: seq<seq<MemEntry>>)
    requires AllWritable(layers)
    ensures Writable(Merged(layers))
  {
    forall j | 0 <= j < |Merged(layers)| ensures Fits(|Merged(layers)[j].key|) && Fits(|Merged(layers)[j].value|) {
      MergedFromLayers(layers, Merged(layers)[j]);
    }
  }

  lemma TablesGood(files: Directory, ns: seq<nat>, i: nat)
    requires AllGood(files) && Present(files, ns) && i < |ns|
    ensures Good(TablesOf(files, ns)[i])
  {
    assert ns[i] in ns;
  }

  lemma TablesSorted(files: Directory, ns: seq<nat>)
    requires AllGood(files) && Present(files, ns)
    ensures AllSorted(TablesOf(files, ns))
  {
    forall i | 0 <= i < |ns| ensures Sorted(TablesOf(files, ns)[i]) {
      TablesGood(files, ns, i);
    }
  }

  lemma StoredTablesWritable(files: Directory, ns: seq<nat>)
    requires AllGood(files) && Present(files, ns)
    ensures AllWritable(StoredLayers(OldestFirst(TablesOf(files, ns))))
  {
    forall i | 0 <= i < |ns| ensures Writable(StoredLayers(OldestFirst(TablesOf(files, ns)))[i]) {
      StoredTableWritable(files, ns, i);
    }
  }

  lemma StoredTableWritable(files: Directory, ns: seq<nat>, i: nat)
    requires AllGood(files) && Present(files, ns) && i < |ns|
    ensures Writable(StoredLayers(OldestFirst(TablesOf(files, ns)))[i])
  {
    var tables, k := TablesOf(files, ns), |ns| - 1 - i;
    TablesGood(files, ns, k);
    assert OldestFirst(tables)[|tables| - 1 - k] == tables[k];
    StoredWritable(tables[k]);
  }

  lemma StoredWritable(es: seq<MemEntry>)
    requires Writable(es)
    ensures Writable(AllStored(es))
  {
    forall i | 0 <= i < |es| ensures Fits(|AllStored(es)[i].key|) && Fits(|AllStored(es)[i].value|) {
      assert AllStored(es)[i] == Stored(es[i]);
    }
  }

  // ---------------------------------------------------------------- the stack of layers

  /** The layers, oldest first. */
  ghost function Stack(tables: seq<seq<MemEntry>>, pending: seq<seq<MemEntry>>,
                       active: seq<MemEntry>): seq<seq<MemEntry>> {
    OldestFirst(tables) + pending + [active]
  }

  ghost function DataOf(tables: seq<seq<MemEntry>>, pending: seq<seq<MemEntry>>,
                        active: seq<MemEntry>): map<Key, Bytes> {
    LiveMap(Overlay(Stack(tables, pending, active)))
  }

  /** What an engine has in its tables, newest first, in the memtable being flushed, and in the active one. */
  datatype Shape = Shape(tables: seq<seq<MemEntry>>, pending: seq<seq<MemEntry>>, active: seq<MemEntry>)

  /** The map the whole stands for. */
  ghost function ShapeData(h: Shape): map<Key, Bytes> { DataOf(h.tables, h.pending, h.active) }

  /** The map the tables alone stand for: what is left when memory is lost. */
  ghost function TableData(h: Shape): map<Key, Bytes> { DataOf(h.tables, [], []) }

  /** The active memtable takes the place of whatever was to be flushed. */
  function Rotated(h: Shape): Shape { Shape(h.tables, [h.active], []) }

  /** The memtable to be flushed becomes the newest table, unless it is empty. */
  function Flushed(h: Shape): Shape {
    if h.pending == [] || h.pending[0] == [] then h else Shape([h.pending[0]] + h.tables, [], h.active)
  }

  /** Only the tables have changed, and they stand for the same, with and without what is in memory. */
  ghost predicate Recast(h: Shape, h': Shape) {
    && h'.pending == h.pending && h'.active == h.active && ShapeData(h') == ShapeData(h)
    && TableData(h') == TableData(h) && DataOf(h'.tables, h'.pending, []) == DataOf(h.tables, h.pending, [])
  }

  lemma RotatedData(h: Shape)
    ensures ShapeData(Rotated(h)) == DataOf(h.tables, [], h.active) && TableData(Rotated(h)) == TableData(h)
  {
    RotatedStack(h.tables, h.active);
  }

  lemma FlushedData(h: Shape)
    requires |h.pending| <= 1
    ensures ShapeData(Flushed(h)) == ShapeData(h)
    ensures Flushed(h) != h ==> TableData(Flushed(h)) == DataOf(h.tables, h.pending, [])
  {
    if Flushed(h) != h {
      FlushedStack(h.tables, h.pending[0], h.active);
      FlushedStack(h.tables, h.pending[0], []);
      assert h.pending == [h.pending[0]];
    }
  }

  /** Rotating and flushing a memtable that is not empty leaves all there is in the tables. */
  lemma RotatedAndFlushed(h: Shape)
    ensures h.active != [] ==> Flushed(Rotated(h)) == Shape([h.active] + h.tables, [], [])
    ensures h.active == [] ==> Flushed(Rotated(h)) == Rotated(h)
    ensures ShapeData(Flushed(Rotated(h))) == DataOf(h.tables, [], h.active)
  {
    RotatedData(h);
    FlushedData(Rotated(h));
  }

  /** Flushing moves the memtable within the stack, from above the tables to the top of the tables. */
  lemma FlushedStack(tables: seq<seq<MemEntry>>, es: seq<MemEntry>, active: seq<MemEntry>)
    ensures DataOf([es] + tables, [], active) == DataOf(tables, [es], active)
  {
    assert ([es] + tables)[1..] == tables;
    assert Stack([es] + tables, [], active) == Stack(tables, [es], active);
  }

  /** Rotating puts an empty memtable on top. */
  lemma RotatedStack(tables: seq<seq<MemEntry>>, es: seq<MemEntry>)
    ensures DataOf(tables, [es], []) == DataOf(tables, [], es)
  {
    EmptyOnTop(OldestFirst(tables) + [es]);
    assert OldestFirst(tables) + [] + [es] == OldestFirst(tables) + [es];
  }

  lemma PutStack(tables: seq<seq<MemEntry>>, pending: seq<seq<MemEntry>>, es: seq<MemEntry>, es': seq<MemEntry>,
                 key: Key, value: Bytes)
    requires View(es') == View(es)[key := Live(value)]
    ensures DataOf(tables, pending, es') == DataOf(tables, pending, es)[key := value]
  {
    WriteOnTop(OldestFirst(tables) + pending, es, es', key, Live(value));
    LiveWith(Overlay(Stack(tables, pending, es)), key, value);
  }

  lemma DeleteStack(tables: seq<seq<MemEntry>>, pending: seq<seq<MemEntry>>, es: seq<MemEntry>, es': seq<MemEntry>,
                    key: Key)
    requires View(es') == View(es)[key := Dead]
    ensures DataOf(tables, pending, es') == DataOf(tables, pending, es) - {key}
  {
    WriteOnTop(OldestFirst(tables) + pending, es, es', key, Dead);
    LiveDelete(Overlay(Stack(tables, pending, es)), key);
  }

  // ---------------------------------------------------------------- reading keys

  /** A lookup in the file of the table finds what the table says. */
  ghost predicate Trusted(hash: Hash, es: seq<MemEntry>, key: Key) {
    var found := Lookup(hash, Filter(hash, es), TableFile(hash, es), key);
    (if found.Some? then Some(CellOf(found.value)) else None) == CellIn(View(es), key)
  }

  ghost predicate AllTrusted(hash: Hash, tables: seq<seq<MemEntry>>, key: Key) {
    forall i :: 0 <= i < |tables| ==> Trusted(hash, tables[i], key)
  }

  /** Every lookup can be trusted but those that run past the end of the data and find the key in what follows it. */
  lemma TrustedIff(hash: Hash, es: seq<MemEntry>, key: Key, idx: nat)
    requires Good(es) && Splits(es, key, idx)
    ensures Trusted(hash, es, key)
       <==> !(&& idx == |es| && AllSet(hash, Filter(hash, es), key, BLOOM_HASHES)
              && Find(Trailer(hash, es), key).Some?)
  {
    LookupAgreesIff(hash, es, key, idx);
    FoundIff(es, key, idx);
    if idx == |es| && AllSet(hash, Filter(hash, es), key, BLOOM_HASHES) {
      LookupPastEnd(hash, es, key);
    }
  }

  /** Looks the key up in a table file. */
  method LookUp(hash: Hash, es: seq<MemEntry>, key: Key) returns (cell: Option<Cell>)
    requires Good(es)
    ensures Trusted(hash, es, key) ==> cell == CellIn(View(es), key)
  {
    var file := TableFile(hash, es);
    TableRoundTrip(hash, es);
    var found := SSTable.Get(hash, Open(file).value.bloom, file, key);
    cell := if found.Some? then Some(CellOf(found.value)) else None;
  }

  lemma FirstHitFrom(tables: seq<seq<MemEntry>>, i: nat, key: Key)
    requires i < |tables|
    ensures FirstHit(tables[i..], key)
         == if key in View(tables[i]) then CellIn(View(tables[i]), key) else FirstHit(tables[i + 1..], key)
  {
    assert tables[i..][1..] == tables[i + 1..];
  }

  /** The newest table that has the key, as far as lookups in the files can be trusted. */
  method SearchTables(hash: Hash, files: Directory, ns: seq<nat>, key: Key) returns (cell: Option<Cell>)
    requires AllGood(files) && Present(files, ns)
    ensures AllTrusted(hash, TablesOf(files, ns), key) ==> cell == FirstHit(TablesOf(files, ns), key)
  {
    ghost var tables := TablesOf(files, ns);
    assert tables[0..] == tables;
    var i := 0;
    while i < |ns|
      invariant 0 <= i <= |ns|
      invariant AllTrusted(hash, tables, key) ==> FirstHit(tables[i..], key) == FirstHit(tables, key)
    {
      assert ns[i] in ns;
      FirstHitFrom(tables, i, key);
      cell := LookUp(hash, files[ns[i]], key);
      if cell.Some? {
        return;
      }
      i := i + 1;
    }
    return None;
  }

  function ValueAt(d: map<Key, Bytes>, key: Key): Option<Bytes> { if key in d then Some(d[key]) else None }

  /** What the stack says about a key is what its newest layer that mentions the key says. */
  lemma StackCell(tables: seq<seq<MemEntry>>, pending: seq<seq<MemEntry>>, active: seq<MemEntry>, key: Key)
    ensures ValueAt(DataOf(tables, pending, active), key)
         == LiveValue(Top(CellIn(View(active), key), CellIn(Overlay(pending), key), FirstHit(tables, key)))
  {
    OverlayConcat(OldestFirst(tables) + pending, [active]);
    OverlayConcat(OldestFirst(tables), pending);
    OverlayOne(active);
    FirstHitIsNewest(tables, key);
    ShowsIsLookup(Overlay(Stack(tables, pending, active)), key);
  }

  // ---------------------------------------------------------------- compacting

  function Compacted(files: Directory, ns: seq<nat>): seq<MemEntry>
    requires Present(files, ns)
  {
    Merged(StoredLayers(OldestFirst(TablesOf(files, ns))))
  }

  lemma StackSplit(tables: seq<seq<MemEntry>>, pending: seq<seq<MemEntry>>, active: seq<MemEntry>)
    ensures Stack(tables, pending, active) == OldestFirst(tables) + (pending + [active])
  {
  }

  lemma OneTable(es: seq<MemEntry>)
    ensures OldestFirst([es]) == [es]
  {
    assert [es][1..] == [];
  }

  lemma CompactedData(tables: seq<seq<MemEntry>>, merged: seq<MemEntry>, pending: seq<seq<MemEntry>>,
                      active: seq<MemEntry>)
    requires AllSorted(tables) && merged == Merged(StoredLayers(OldestFirst(tables)))
    ensures DataOf([merged], pending, active) == DataOf(tables, pending, active)
  {
    MergeKeepsData(tables, pending + [active]);
    OneTable(merged);
    StackSplit([merged], pending, active);
    StackSplit(tables, pending, active);
  }

  lemma CompactionKeepsData(files: Directory, ns: seq<nat>, pending: seq<seq<MemEntry>>, active: seq<MemEntry>)
    requires AllGood(files) && Present(files, ns)
    ensures DataOf([Compacted(files, ns)], pending, active) == DataOf(TablesOf(files, ns), pending, active)
  {
    TablesSorted(files, ns);
    CompactedData(TablesOf(files, ns), Compacted(files, ns), pending, active);
  }

  /** The new file is the only open one, and the merged ones are removed. */
  lemma Swapped(files: Directory, ns: seq<nat>, number: nat, merged: seq<MemEntry>)
    requires AllGood(files[number := merged]) && UpTo(files[number := merged], number) && Present(files, ns)
    requires number !in files
    ensures var files' := files[number := merged] - (set n | n in ns);
            && AllGood(files') && UpTo(files', number) && Present(files', [number])
            && TablesOf(files', [number]) == [merged]
            && forall n :: n in files' ==> n == number || (n in files && n !in ns)
  {
    var files' := files[number := merged] - (set n | n in ns);
    assert number !in ns;
    assert [number][1..] == [];
  }

  // ---------------------------------------------------------------- snapshots

  /** The data fits into one table file. */
  ghost predicate SmallData(d: map<Key, Bytes>) {
    forall es: seq<MemEntry> :: Sorted(es) && NoTombstones(es) && LiveMap(View(es)) == d ==> |DataBlock(es)| < Power(8)
  }

  /** What the snapshot holds, if it can be decoded, fits into one table file. */
  ghost predicate Loadable(data: Bytes) { ReadAll(data).Some? ==> SmallData(LiveMap(View(ReadAll(data).value))) }

  lemma SortedConcat(a: seq<seq<MemEntry>>, b: seq<seq<MemEntry>>)
    requires AllSorted(a) && AllSorted(b) && AllWritable(a) && AllWritable(b)
    ensures AllSorted(a + b) && AllWritable(a + b)
  {
  }

  lemma InputsReadable(files: Directory, ns: seq<nat>, memory: seq<seq<MemEntry>>)
    requires AllGood(files) && Present(files, ns) && AllSorted(memory) && AllWritable(memory)
    ensures var inputs := StoredLayers(OldestFirst(TablesOf(files, ns))) + memory;
            AllSorted(inputs) && AllWritable(inputs)
  {
    TablesSorted(files, ns);
    OldestSorted(TablesOf(files, ns));
    StoredSorted(OldestFirst(TablesOf(files, ns)));
    StoredTablesWritable(files, ns);
    SortedConcat(StoredLayers(OldestFirst(TablesOf(files, ns))), memory);
  }

  lemma InputsOverlay(tables: seq<seq<MemEntry>>, pending: seq<seq<MemEntry>>, active: seq<MemEntry>)
    ensures LiveMap(Overlay(StoredLayers(OldestFirst(tables)) + (pending + [active])))
         == DataOf(tables, pending, active)
  {
    StoredOverlay(OldestFirst(tables));
    OverlayConcat(StoredLayers(OldestFirst(tables)), pending + [active]);
    OverlayConcat(OldestFirst(tables), pending + [active]);
    StackSplit(tables, pending, active);
  }

  lemma MergedDecodes(merged: seq<MemEntry>)
    requires NoTombstones(merged) && Writable(merged)
    ensures ReadAll(Image(merged)).Some? && View(ReadAll(Image(merged)).value) == View(merged)
  {
    ImageRoundTrip(merged);
    PutsView(merged);
  }

  method EncodeMerged(inputs: seq<seq<MemEntry>>) returns (data: Bytes)
    requires AllSorted(inputs) && AllWritable(inputs)
    ensures ReadAll(data).Some? && LiveMap(View(ReadAll(data).value)) == LiveMap(Overlay(inputs))
    ensures data == SnapshotOf(LiveMap(Overlay(inputs)))
  {
    var merged := MergeEntries(inputs);
    SnapshotIs(merged, LiveMap(Overlay(inputs)));
    MergedWritable(inputs);
    MergedDecodes(merged);
    data := EncodeSnapshot(merged);
  }

  /** Merges the tables, the pending memtable and the active one, and serializes the result. */
  method EncodeLayers(hash: Hash, files: Directory, ns: seq<nat>, pending: seq<seq<MemEntry>>, active: seq<MemEntry>)
    returns (data: Bytes)
    requires AllGood(files) && Present(files, ns) && AllSorted(pending + [active]) && AllWritable(pending + [active])
    ensures ReadAll(data).Some? && LiveMap(View(ReadAll(data).value)) == DataOf(TablesOf(files, ns), pending, active)
    ensures data == SnapshotOf(DataOf(TablesOf(files, ns), pending, active))
  {
    var inputs := ReadTables(hash, files, ns);
    InputsReadable(files, ns, pending + [active]);
    InputsOverlay(TablesOf(files, ns), pending, active);
    data := EncodeMerged(inputs + (pending + [active]));
  }

  /** A memtable with the entries of a snapshot. */
  method FillTable(es: seq<MemEntry>) returns (t: Table)
    requires Puts(es)
    ensures fresh(t) && t.Valid() && Writable(t.entries) && t.Contents() == View(es) && NoTombstones(t.entries)
  {
    t := new Table();
    var i := 0;
    while i < |es|
      invariant 0 <= i <= |es| && t.Valid() && Writable(t.entries) && t.Contents() == View(es[..i])
    {
      assert es[..i + 1][..i] == es[..i];
      t.Put(es[i].key, es[i].value);
      i := i + 1;
    }
    assert es[..i] == es;
    OnlyLive(t.entries, es);
  }

  /** The memtable a snapshot fills; none if it cannot be decoded. */
  method DecodeTable(data: Bytes) returns (t: Table?)
    requires Loadable(data)
    ensures t != null <==> ReadAll(data).Some?
    ensures t != null ==> fresh(t) && t.Valid() && Writable(t.entries) && |DataBlock(t.entries)| < Power(8)
    ensures t != null ==> t.Contents() == View(ReadAll(data).value)
  {
    var entries := DecodeSnapshot(data);
    if entries.None? {
      return null;
    }
    ReadAllPuts(data);
    t := FillTable(entries.value);
  }

  lemma {:induction false} PutsAreLive(es: seq<MemEntry>, key: Key)
    requires Puts(es) && key in View(es)
    ensures View(es)[key].Live?
  {
    var n := |es| - 1;
    if key != es[n].key {
      PutsAreLive(es[..n], key);
    }
  }

  lemma OnlyLive(table: seq<MemEntry>, es: seq<MemEntry>)
    requires Sorted(table) && Puts(es) && View(table) == View(es)
    ensures NoTombstones(table)
  {
    forall i | 0 <= i < |table| ensures table[i].kind != KIND_DELETE {
      ViewAt(table, i);
      PutsAreLive(es, table[i].key);
    }
  }

  lemma AloneInStack(es: seq<MemEntry>)
    ensures DataOf([], [], es) == LiveMap(View(es))
  {
    assert Stack([], [], es) == [es];
    OverlayOne(es);
  }

  lemma EmptyMemory(tables: seq<seq<MemEntry>>, pending: seq<seq<MemEntry>>)
    requires pending == [] || pending == [[]]
    ensures DataOf(tables, pending, []) == LiveMap(Overlay(OldestFirst(tables)))
  {
    EmptyOnTop(OldestFirst(tables) + pending);
    if pending == [] {
      assert OldestFirst(tables) + pending == OldestFirst(tables);
    } else {
      EmptyOnTop(OldestFirst(tables));
    }
  }

  // ---------------------------------------------------------------- where data gets lost

  /** Close overwrites a pending memtable; that goes unnoticed exactly if what it says is hidden or known anyway. */
  lemma ClosePendingUnnoticedIff(tables: seq<seq<MemEntry>>, pending: seq<MemEntry>, active: seq<MemEntry>)
    ensures DataOf(tables, [], active) == DataOf(tables, [pending], active)
       <==> HiddenOrKnown(Overlay(OldestFirst(tables)), View(pending), View(active))
  {
    StackSplit(tables, [], active);
    assert [] + [active] == [active];
    OverlayConcat(OldestFirst(tables), [active]);
    OverlayConcat(OldestFirst(tables) + [pending], [active]);
    OverlayConcat(OldestFirst(tables), [pending]);
    OverlayOne(active);
    OverlayOne(pending);
    DropGoesUnnoticedIff(Overlay(OldestFirst(tables)), View(pending), View(active));
  }

  const OLDER: seq<MemEntry> := [MemEntry([1], [1], KIND_PUT, 1)]
  const NEWER: seq<MemEntry> := [MemEntry([1], [2], KIND_PUT, 2)]

  lemma OlderAndNewer()
    ensures View(OLDER) == map[[1] := Live([1])] && View(NEWER) == map[[1] := Live([2])] && View([]) == map[]
  {
    assert OLDER[..0] == [] && NEWER[..0] == [];
  }

  /** A value written and flushed while a compaction runs is replaced by the one it had before. */
  lemma LostFlushShows()
    ensures var merged := Merged(StoredLayers(OldestFirst([OLDER, OLDER])));
            LiveMap(Overlay([merged] + [[]]))
              != LiveMap(Overlay(OldestFirst([OLDER, OLDER]) + OldestFirst([NEWER]) + [[]]))
  {
    OlderAndNewer();
    OneTable(NEWER);
    OverlayOne(NEWER);
    OverlayOne([]);
    FirstHitIsNewest([OLDER, OLDER], [1]);
    assert Shows(View(NEWER), [1]) == Some([2]) && Shows(Overlay(OldestFirst([OLDER, OLDER])), [1]) == Some([1]);
    LostFlushUnnoticedIff([NEWER], [OLDER, OLDER], [[]]);
  }

  /** A value written before Close, while a flush is pending, hides the pending values of other keys for good. */
  lemma ClosePendingShows()
    ensures DataOf([], [], [MemEntry([2], [], KIND_PUT, 1)]) != DataOf([], [NEWER], [MemEntry([2], [], KIND_PUT, 1)])
  {
    var active := [MemEntry([2], [], KIND_PUT, 1)];
    OlderAndNewer();
    assert active[..0] == [] && View(active) == map[[2] := Live([])];
    assert [1] in View(NEWER) && [1] !in View(active) && Shows(View(NEWER), [1]) == Some([2]);
    ClosePendingUnnoticedIff([], NEWER, active);
  }

  // ---------------------------------------------------------------- file numbers

  /** A file under a new number leaves the other tables as they are. */
  lemma NewFile(files: Directory, ns: seq<nat>, number: nat, es: seq<MemEntry>)
    requires Present(files, ns) && number !in files
    ensures var files' := files[number := es];
            && Present(files', ns) && TablesOf(files', ns) == TablesOf(files, ns)
            && Present(files', [number] + ns) && TablesOf(files', [number] + ns) == [es] + TablesOf(files, ns)
  {
    var files' := files[number := es];
    assert ([number] + ns)[1..] == ns;
    assert forall i :: 0 <= i < |ns| ==> TablesOf(files', ns)[i] == TablesOf(files, ns)[i];
  }

  lemma NewestOnTop(files: Directory, ns: seq<nat>, last: nat)
    requires Present(files, ns) && Falling(ns) && UpTo(files, last)
    ensures last + 1 !in files && Falling([last + 1] + ns)
  {
    var ns' := [last + 1] + ns;
    forall i, j | 0 <= i < j < |ns'| ensures ns'[i] > ns'[j] {
      assert ns'[j] == ns[j - 1] && ns[j - 1] in ns;
    }
  }

  /** The directory without these files. */
  lemma Emptied(files: Directory, ns: seq<nat>, last: nat)
    requires AllGood(files) && UpTo(files, last)
    ensures var files' := files - (set n | n in ns);
            && AllGood(files') && UpTo(files', last) && ((forall n :: n in files ==> n in ns) ==> files' == map[])
  {
  }

  lemma NewFileGood(files: Directory, last: nat, es: seq<MemEntry>)
    requires AllGood(files) && UpTo(files, last) && Good(es)
    ensures AllGood(files[last + 1 := es]) && UpTo(files[last + 1 := es], last + 1)
  {
  }

  method Largest(s: set<nat>) returns (m: nat)
    requires s != {}
    ensures m in s && forall n :: n in s ==> n <= m
  {
    m :| m in s;
    var rest := s - {m};
    while rest != {}
      invariant rest <= s && m in s && forall n :: n in s && n !in rest ==> n <= m
      decreases rest
    {
      var n :| n in rest;
      rest := rest - {n};
      if n > m {
        m := n;
      }
    }
  }

  /** The file numbers, newest first. */
  method NewestFirst(numbers: set<nat>) returns (ns: seq<nat>)
    ensures Falling(ns) && forall n :: n in ns <==> n in numbers
  {
    ns := [];
    var rest := numbers;
    while rest != {}
      invariant rest <= numbers && Falling(ns)
      invariant forall n :: n in numbers <==> n in rest || n in ns
      invariant forall n, i :: n in rest && 0 <= i < |ns| ==> ns[i] > n
      decreases rest
    {
      var m := Largest(rest);
      ns, rest := ns + [m], rest - {m};
    }
  }

  /** Those of the numbers whose files open. */
  method Openable(all: seq<nat>, files: Directory) returns (ns: seq<nat>)
    requires Falling(all)
    ensures Falling(ns) && forall n :: n in ns <==> n in all && n in files
  {
    ns := [];
    var i := 0;
    while i < |all|
      invariant 0 <= i <= |all| && Falling(ns)
      invariant forall n :: n in ns <==> n in all[..i] && n in files
      invariant forall j :: 0 <= j < |ns| && i < |all| ==> ns[j] > all[i]
    {
      assert all[..i + 1] == all[..i] + [all[i]];
      if all[i] in files {
        ns := ns + [all[i]];
      }
      i := i + 1;
      forall j | 0 <= j < |ns| && i < |all| ensures ns[j] > all[i] {
        assert ns[j] in ns;
        var k :| 0 <= k < i && all[k] == ns[j];
      }
    }
    assert all[..i] == all;
  }

  lemma {:induction false} FallingUnique(a: seq<nat>, b: seq<nat>)
    requires Falling(a) && Falling(b) && forall n :: n in a <==> n in b
    ensures a == b
  {
    EmptyTogether(a, b);
    if a != [] {
      assert a[0] in a;
      var j :| 0 <= j < |b| && b[j] == a[0];
      assert b[0] in b;
      var i :| 0 <= i < |a| && a[i] == b[0];
      assert i == 0 && j == 0;
      forall n ensures n in a[1..] <==> n in b[1..] {
        InTail(a, n);
        InTail(b, n);
      }
      FallingUnique(a[1..], b[1..]);
    }
  }

  lemma EmptyTogether(a: seq<nat>, b: seq<nat>)
    requires forall n :: n in a <==> n in b
    ensures a == [] <==> b == []
  {
    if a != [] { assert a[0] in b; }
    if b != [] { assert b[0] in a; }
  }

  lemma InTail(a: seq<nat>, n: nat)
    requires Falling(a) && a != []
    ensures n in a[1..] <==> n in a && n != a[0]
  {
    if n in a[1..] {
      var i :| 0 <= i < |a| - 1 && a[1..][i] == n;
      assert a[i + 1] == n;
    }
    if n in a && n != a[0] {
      var i :| 0 <= i < |a| && a[i] == n;
      assert a[1..][i - 1] == n;
    }
  }

  // ---------------------------------------------------------------- the engine

  class Engine {
    const hash: Hash
    var active: Table
    var immutable: Table?
    var sstables: seq<nat>           // file numbers, newest first
    var sstableSeq: nat
    var closed: bool
    var files: Directory

    ghost predicate Valid()
      reads this, active, immutable
    {
      && active.Valid() && Writable(active.entries)
      && (immutable != null ==> immutable != active && immutable.Valid() && Writable(immutable.entries))
      && AllGood(files) && Present(files, sstables) && Falling(sstables) && UpTo(files, sstableSeq)
    }

    /** The directory has no file but those of the open tables. */
    ghost predicate Tidy()
      reads this
    {
      forall n :: n in files ==> n in sstables
    }

    ghost function Tables(): seq<seq<MemEntry>>
      requires Present(files, sstables)
      reads this
    {
      TablesOf(files, sstables)
    }

    ghost function Pending(): seq<seq<MemEntry>>
      reads this, immutable
    {
      if immutable == null then [] else [immutable.entries]
    }

    ghost function Layout(): Shape
      requires Present(files, sstables)
      reads this, active, immutable
    {
      Shape(Tables(), Pending(), active.entries)
    }

    /** The map the engine stands for. */
    ghost function Data(): map<Key, Bytes>
      requires Present(files, sstables)
      reads this, active, immutable
    {
      ShapeData(Layout())
    }

    /**
     Open: takes up the tables of a directory; the higher the number, the newer the table. Files that do not open as
     tables are skipped, but their numbers are not used again.
     */
    constructor (hash: Hash, files: Directory, corrupt: set<nat>)
      requires AllGood(files) && files.Keys !! corrupt
      ensures Valid() && Tidy() && fresh(active) && immutable == null && !closed
      ensures this.hash == hash && this.files == files && active.entries == []
      ensures forall n :: n in corrupt ==> n <= sstableSeq
    {
      var all := NewestFirst(files.Keys + corrupt);
      var ns := Openable(all, files);
      this.hash, this.files, sstables := hash, files, ns;
      active := new Table();
      immutable, closed := null, false;
      sstableSeq := if |all| > 0 then all[0] else 0;
    }

    // -------------------------------------------------------------- writes

    method Put(key: Key, value: Bytes) returns (ok: bool)
      requires Valid() && Fits(|key|) && Fits(|value|)
      modifies active
      ensures Valid() && (ok <==> !closed)
      ensures Data() == if ok then old(Data())[key := value] else old(Data())
      ensures Tables() == old(Tables()) && Pending() == old(Pending())
      ensures ok ==> active.Contents() == old(active.Contents())[key := Live(value)] && active.size > old(active.size)
    {
      if closed {
        return false;
      }
      active.Put(key, value);
      PutStack(Tables(), Pending(), old(active.entries), active.entries, key, value);
      return true;
    }

    method Delete(key: Key) returns (ok: bool)
      requires Valid() && Fits(|key|)
      modifies active
      ensures Valid() && (ok <==> !closed)
      ensures Data() == if ok then old(Data()) - {key} else old(Data())
      ensures Tables() == old(Tables()) && Pending() == old(Pending())
      ensures ok ==> active.Contents() == old(active.Contents())[key := Dead] && active.size > old(active.size)
    {
      if closed {
        return false;
      }
      active.Delete(key);
      DeleteStack(Tables(), Pending(), old(active.entries), active.entries, key);
      return true;
    }

    // -------------------------------------------------------------- flushing

    /** Writes entries to a file under the next number. */
    method AddFile(entries: seq<MemEntry>)
      requires Valid() && Good(entries)
      modifies this`sstableSeq, this`files
      ensures Valid() && sstableSeq == old(sstableSeq) + 1 && sstableSeq !in old(files)
      ensures files == old(files)[sstableSeq := entries] && Tables() == old(Tables())
      ensures Falling([sstableSeq] + sstables)
    {
      NewestOnTop(files, sstables, sstableSeq);
      NewFile(files, sstables, sstableSeq + 1, entries);
      NewFileGood(files, sstableSeq, entries);
      files := files[sstableSeq + 1 := entries];
      sstableSeq := sstableSeq + 1;
    }

    /** Writes the immutable memtable to a new table file. An empty one is not written, and stays where it is. */
    method DoFlush()
      requires Valid() && (immutable != null ==> |DataBlock(immutable.entries)| < Power(8))
      modifies this`immutable, this`sstables, this`sstableSeq, this`files
      ensures Valid() && (old(Tidy()) ==> Tidy()) && Layout() == Flushed(old(Layout())) && Data() == old(Data())
      ensures immutable == if Flushed(old(Layout())) == old(Layout()) then old(immutable) else null
    {
      FlushedData(Layout());
      if immutable == null || immutable.size == 0 {
        return;
      }
      FlushFilled();
    }

    method FlushFilled()
      requires Valid() && immutable != null && |DataBlock(immutable.entries)| < Power(8)
      modifies this`immutable, this`sstables, this`sstableSeq, this`files
      ensures Valid() && (old(Tidy()) ==> Tidy()) && immutable == null
      ensures Tables() == [old(immutable.entries)] + old(Tables())
    {
      AddFile(immutable.entries);
      NewFile(old(files), old(sstables), sstableSeq, immutable.entries);
      sstables := [sstableSeq] + sstables;
      immutable := null;
    }

    /** The active memtable becomes the one to flush, in place of whatever was, and a new one takes its place. */
    method Rotate()
      requires Valid()
      modifies this`active, this`immutable
      ensures Valid() && immutable == old(active) && active.entries == [] && fresh(active)
      ensures Layout() == Rotated(old(Layout()))
    {
      immutable := active;
      active := new Table();
    }

    /**
     Nothing happens while a memtable waits to be flushed. Otherwise the active one is flushed; but if that is empty it
     stays behind as the one to be flushed, and from then on nothing will ever be flushed by this method again.
     */
    method RotateAndFlush()
      requires Valid() && (immutable == null ==> |DataBlock(active.entries)| < Power(8))
      modifies this`active, this`immutable, this`sstables, this`sstableSeq, this`files
      ensures Valid() && (old(Tidy()) ==> Tidy()) && Data() == old(Data())
      ensures old(immutable) != null
          ==> Layout() == old(Layout()) && immutable == old(immutable) && active == old(active)
      ensures old(immutable) == null ==> active.entries == [] && fresh(active)
      ensures old(immutable) == null && old(active.entries) != [] ==>
                Layout() == Shape([old(active.entries)] + old(Tables()), [], []) && immutable == null
      ensures old(immutable) == null && old(active.entries) == [] ==>
                Layout() == Shape(old(Tables()), [[]], []) && immutable == old(active)
    {
      if immutable != null {
        return;
      }
      RotatedAndFlushed(Layout());
      Rotate();
      DoFlush();
    }

    // -------------------------------------------------------------- reads

    /** The active memtable, then the one being flushed, then the tables; first live value wins. */
    method Get(key: Key) returns (value: Option<Bytes>)
      requires Valid()
      ensures AllTrusted(hash, Tables(), key) ==>
                value == Searched(CellIn(active.Contents(), key), CellIn(Overlay(Pending()), key),
                                  FirstHit(Tables(), key))
      ensures AllTrusted(hash, Tables(), key) ==>
                (value == ValueAt(Data(), key)
                 <==> !Uncovered(CellIn(active.Contents(), key), CellIn(Overlay(Pending()), key),
                                 FirstHit(Tables(), key)))
    {
      StackCell(Tables(), Pending(), active.entries, key);
      SearchRightIff(CellIn(active.Contents(), key), CellIn(Overlay(Pending()), key), FirstHit(Tables(), key));
      value := active.Get(key);
      if value.Some? {
        return;
      }
      if immutable != null {
        OverlayOne(immutable.entries);
        value := immutable.Get(key);
        if value.Some? {
          return;
        }
      }
      var cell := SearchTables(hash, files, sstables, key);
      if cell.Some? && cell.value.Live? {
        return Some(cell.value.value);
      }
      return None;
    }

    // -------------------------------------------------------------- compaction

    /**
     The second half of a compaction: the tables captured in the first half are merged into one, which becomes the
     only table, whatever tables there are by then.
     */
    method FinishCompaction(toCompact: seq<nat>)
      requires Valid() && Present(files, toCompact) && |DataBlock(Compacted(files, toCompact))| < Power(8)
      modifies this`sstables, this`sstableSeq, this`files
      ensures Valid()
      ensures |toCompact| < 2 ==> sstables == old(sstables) && files == old(files)
      ensures |toCompact| >= 2 ==>
                && Tables() == [Compacted(old(files), toCompact)] && sstables == [sstableSeq]
                && sstableSeq == old(sstableSeq) + 1
                && files == old(files)[sstableSeq := Compacted(old(files), toCompact)] - (set n | n in toCompact)
      ensures toCompact == old(sstables) && old(Tidy()) ==> Tidy()
    {
      if |toCompact| < 2 {
        return;
      }
      var merged := MergeTables(hash, files, toCompact);
      AddFile(merged);
      SwapIn(toCompact, merged);
    }

    /**
     A compaction during which no flush completes leaves the data as it was; Layers.LostFlushUnnoticedIff tells
     what happens otherwise.
     */
    method DoCompaction()
      requires Valid() && |DataBlock(Compacted(files, sstables))| < Power(8)
      modifies this`sstables, this`sstableSeq, this`files
      ensures Valid() && Data() == old(Data()) && (old(Tidy()) ==> Tidy()) && Recast(old(Layout()), Layout())
      ensures |sstables| <= 1
    {
      if |sstables| < 2 {
        return;
      }
      FinishCompaction(sstables);
      CompactionKeepsData(old(files), old(sstables), Pending(), active.entries);
      CompactionKeepsData(old(files), old(sstables), Pending(), []);
      CompactionKeepsData(old(files), old(sstables), [], []);
    }

    /** The file written last becomes the only table; the merged files are removed. */
    method SwapIn(toCompact: seq<nat>, ghost merged: seq<MemEntry>)
      requires Valid() && sstableSeq in files && files[sstableSeq] == merged
      requires Present(files - {sstableSeq}, toCompact)
      modifies this`sstables, this`files
      ensures Valid() && Tables() == [merged] && sstables == [sstableSeq]
      ensures files == old(files) - (set n | n in toCompact)
      ensures toCompact == old(sstables) && (forall n :: n in old(files) ==> n in old(sstables) || n == sstableSeq)
          ==> Tidy()
    {
      Swapped(files - {sstableSeq}, toCompact, sstableSeq, merged);
      assert (files - {sstableSeq})[sstableSeq := merged] == files;
      sstables := [sstableSeq];
      files := files - (set n | n in toCompact);
    }

    // -------------------------------------------------------------- closing

    /**
     Flushes what is in memory. A memtable already waiting to be flushed is overwritten if the active one is
     not empty.
     */
    method Close()
      requires Valid() && |DataBlock(active.entries)| < Power(8)
      requires immutable != null ==> |DataBlock(immutable.entries)| < Power(8)
      modifies this
      ensures Valid() && closed && (old(Tidy()) ==> Tidy())
      ensures !old(closed) ==> active.entries == [] && (immutable != null ==> immutable.entries == [])
      ensures Data() == if !old(closed) && old(immutable) != null && old(active).size > 0
                        then DataOf(old(Tables()), [], old(active.entries)) else old(Data())
    {
      if closed {
        return;
      }
      closed := true;
      if active.size > 0 {
        FlushActive();
      } else if immutable != null {
        DoFlush();
      }
    }

    method FlushActive()
      requires Valid() && active.size > 0 && |DataBlock(active.entries)| < Power(8)
      modifies this`active, this`immutable, this`sstables, this`sstableSeq, this`files
      ensures Valid() && (old(Tidy()) ==> Tidy()) && immutable == null && active.entries == [] && fresh(active)
      ensures Layout() == Shape([old(active.entries)] + old(Tables()), [], [])
      ensures Data() == DataOf(old(Tables()), [], old(active.entries))
    {
      RotatedAndFlushed(Layout());
      Rotate();
      DoFlush();
    }

    // -------------------------------------------------------------- snapshots

    /**
     A serialized view of all live keys: the bytes are decided by the engine's data, and decoding them gives
     it back.
     */
    method Snapshot() returns (data: Bytes)
      requires Valid()
      ensures ReadAll(data).Some? && LiveMap(View(ReadAll(data).value)) == Data()
      ensures data == SnapshotOf(Data())
    {
      if immutable == null {
        data := EncodeLayers(hash, files, sstables, [], active.entries);
      } else {
        data := EncodeLayers(hash, files, sstables, [immutable.entries], active.entries);
      }
    }

    /** Replaces everything by the contents of a snapshot; nothing changes if it cannot be decoded. */
    method LoadSnapshot(data: Bytes) returns (ok: bool)
      requires Valid() && Loadable(data)
      modifies this`active, this`immutable, this`sstables, this`sstableSeq, this`files
      ensures Valid() && (ok <==> ReadAll(data).Some?) && (old(Tidy()) ==> Tidy())
      ensures Data() == if ok then LiveMap(View(ReadAll(data).value)) else old(Data())
      ensures if ok then Layout() == Shape(Tables(), [], [])
              else Layout() == old(Layout()) && immutable == old(immutable)
      ensures active == old(active) || fresh(active)
    {
      var table := DecodeTable(data);
      if table == null {
        return false;
      }
      Adopt(table);
      return true;
    }

    /** The memtable becomes all there is, and is flushed. */
    method Adopt(table: Table)
      requires Valid() && table.Valid() && Writable(table.entries) && |DataBlock(table.entries)| < Power(8)
      modifies this`active, this`immutable, this`sstables, this`sstableSeq, this`files
      ensures Valid() && Data() == LiveMap(View(table.entries)) && (old(Tidy()) ==> Tidy())
      ensures Layout() == Shape(Tables(), [], [])
      ensures active == table || fresh(active)
    {
      StartOver(table);
      AloneInStack(table.entries);
      if active.size > 0 {
        FlushActive();
      }
    }

    method StartOver(table: Table)
      requires Valid() && table.Valid() && Writable(table.entries)
      modifies this`active, this`immutable, this`sstables, this`files
      ensures Valid() && active == table && immutable == null && sstables == [] && (old(Tidy()) ==> Tidy())
      ensures Layout() == Shape([], [], table.entries)
    {
      Emptied(files, sstables, sstableSeq);
      files := files - (set n | n in sstables);
      sstables, active, immutable := [], table, null;
    }
  }

  /**
   Open over the directory of an engine that crashed or was closed: the new engine stands for what the tables of the old
   one stand for, which is all of its data if its memtables were empty.
   */
  method Reopen(e: Engine) returns (e': Engine)
    requires e.Valid() && e.Tidy()
    ensures fresh(e') && fresh(e'.active) && e'.Valid() && e'.Tidy() && !e'.closed && e'.immutable == null
    ensures e'.hash == e.hash && e'.Layout() == Shape(e.Tables(), [], []) && e'.Data() == TableData(e.Layout())
    ensures e.active.entries == [] && (e.immutable != null ==> e.immutable.entries == []) ==> e'.Data() == e.Data()
  {
    e' := new Engine(e.hash, e.files, {});
    FallingUnique(e'.sstables, e.sstables);
    if e.active.entries == [] && (e.immutable != null ==> e.immutable.entries == []) {
      EmptyMemory(e.Tables(), e.Pending());
      EmptyMemory(e.Tables(), []);
    }
  }

  /** Snapshot on one engine, LoadSnapshot on another: the second then stands for the data of the first. */
  method Restore(source: Engine, target: Engine)
    requires source.Valid() && target.Valid() && SmallData(source.Data())
    modifies target
    ensures target.Valid() && target.Data() == old(source.Data())
  {
    ghost var d := source.Data();
    var data := source.Snapshot();
    assert LiveMap(View(ReadAll(data).value)) == d;
    var ok := target.LoadSnapshot(data);
  }

  // ---------------------------------------------------------------- a tombstone that does not hide

  lemma OneEntryGood(e: MemEntry)
    requires Fits(|e.key|) && Fits(|e.value|)
    ensures Good([e])
  {
    assert Records([e])[1..] == [] && Concat([]) == [] && DataBlock([e]) == Record(e) + [];
    PowerFour();
    assert Power(8) == 0x1_0000_0000 * 0x1_0000_0000 by {
      assert Power(5) == 256 * Power(4) && Power(6) == 256 * Power(5) && Power(7) == 256 * Power(6);
    }
  }

  lemma SoleEntry(es: seq<MemEntry>, key: Key, value: Bytes)
    requires Sorted(es) && View(es) == map[key := Live(value)]
    ensures |es| == 1 && es[0].key == key && es[0].value == value
  {
    ViewHas(es, key);
    LessIrreflexive(key);
    forall i | 0 <= i < |es| ensures es[i].key == key && es[i].value == value {
      ViewAt(es, i);
    }
  }

  /** Lookups find the value, and it is all there is. */
  ghost predicate OnlyIn(hash: Hash, tables: seq<seq<MemEntry>>, key: Key, value: Bytes) {
    AllTrusted(hash, tables, key) && FirstHit(tables, key) == Some(Live(value))
  }

  lemma SoleTrusted(hash: Hash, es: seq<MemEntry>, key: Key)
    requires Good(es) && |es| == 1 && es[0].key == key
    ensures Trusted(hash, es, key)
  {
    LessIrreflexive(key);
    TrustedIff(hash, es, key, 0);
  }

  lemma TrustedAlone(hash: Hash, tables: seq<seq<MemEntry>>, key: Key)
    requires |tables| == 1 && Trusted(hash, tables[0], key)
    ensures AllTrusted(hash, tables, key)
  {
    forall i | 0 <= i < |tables| ensures Trusted(hash, tables[i], key) {
      assert i == 0;
    }
  }

  lemma HitAlone(tables: seq<seq<MemEntry>>, key: Key, value: Bytes)
    requires |tables| == 1 && key in View(tables[0]) && View(tables[0])[key] == Live(value)
    ensures FirstHit(tables, key) == Some(Live(value))
  {
  }

  /** A table with one entry is a table file, and its key is found in it. */
  lemma SoleTable(hash: Hash, es: seq<MemEntry>, key: Key, value: Bytes)
    requires Sorted(es) && View(es) == map[key := Live(value)] && Fits(|key|) && Fits(|value|)
    ensures |DataBlock(es)| < Power(8) && OnlyIn(hash, [es] + [], key, value)
  {
    SoleEntry(es, key, value);
    OneEntryGood(es[0]);
    assert es == [es[0]];
    SoleTrusted(hash, es, key);
    TrustedAlone(hash, [es] + [], key);
    HitAlone([es] + [], key, value);
  }

  /** A new engine with one key. */
  method PutOne(hash: Hash, key: Key, value: Bytes) returns (e: Engine)
    requires Fits(|key|) && Fits(|value|)
    ensures fresh(e) && fresh(e.active) && e.Valid() && !e.closed && e.immutable == null && e.sstables == []
    ensures e.hash == hash && e.active.size > 0 && e.active.Contents() == map[key := Live(value)]
  {
    e := OpenEmpty(hash);
    var ok := e.Put(key, value);
  }

  /** A new engine with one key, in one table. */
  method PutAndFlush(hash: Hash, key: Key, value: Bytes) returns (e: Engine)
    requires Fits(|key|) && Fits(|value|)
    ensures fresh(e) && fresh(e.active) && e.Valid() && !e.closed && e.immutable == null && e.active.entries == []
    ensures OnlyIn(e.hash, e.Tables(), key, value)
  {
    e := PutOne(hash, key, value);
    ghost var tables := [e.active.entries] + [];
    SoleTable(hash, e.active.entries, key, value);
    e.RotateAndFlush();
    SameTables(hash, tables, e.Tables(), key, value);
  }

  lemma SameTables(hash: Hash, tables: seq<seq<MemEntry>>, tables': seq<seq<MemEntry>>, key: Key, value: Bytes)
    requires OnlyIn(hash, tables, key, value) && tables' == tables
    ensures OnlyIn(hash, tables', key, value)
  {
  }

  /** Put, flush, delete, get: the key is gone from the engine's data, and reads as if it had not been deleted. */
  method DeletedKeyReadsBack(hash: Hash, key: Key, value: Bytes) returns (e: Engine, found: Option<Bytes>)
    requires Fits(|key|) && Fits(|value|)
    ensures e.Valid() && key !in e.Data() && found == Some(value)
  {
    e := PutAndFlush(hash, key, value);
    var ok := e.Delete(key);
    found := e.Get(key);
  }

  // ---------------------------------------------------------------- a rotation that blocks all others

  /**
   The flusher is woken twice for one full memtable and finds the next one empty. Whatever is written and
   however often it is woken from then on, nothing reaches a table: a crash loses it all.
   */
  method EmptyRotationBlocks(hash: Hash, writes: seq<(Key, Bytes)>) returns (e: Engine)
    requires forall i :: 0 <= i < |writes| ==> Fits(|writes[i].0|) && Fits(|writes[i].1|)
    ensures e.Valid() && e.Tables() == [] && TableData(e.Layout()) == map[]
    ensures forall i :: 0 <= i < |writes| ==> writes[i].0 in e.Data()
  {
    e := Blocked(hash);
    PutAllBlocked(e, writes);
    NothingStored();
  }

  /** An engine over an empty directory. */
  method OpenEmpty(hash: Hash) returns (e: Engine)
    ensures fresh(e) && fresh(e.active) && e.Valid() && e.Tidy() && !e.closed && e.hash == hash
    ensures e.immutable == null && e.sstables == [] && e.Layout() == Shape([], [], [])
  {
    e := new Engine(hash, map[], {});
    EmptyTogether(e.sstables, []);
  }

  /** Its flusher is woken for nothing. */
  method Blocked(hash: Hash) returns (e: Engine)
    ensures fresh(e) && fresh(e.active) && e.Valid() && !e.closed && e.immutable != null && e.Tables() == []
  {
    e := OpenEmpty(hash);
    NothingStored();
    e.RotateAndFlush();
  }

  /** A write to an engine whose flusher is blocked, and a call of the flusher. */
  method PutBlocked(e: Engine, key: Key, value: Bytes)
    requires e.Valid() && !e.closed && e.immutable != null && Fits(|key|) && Fits(|value|)
    modifies e, e.active
    ensures e.Valid() && !e.closed && e.immutable != null && e.active == old(e.active)
    ensures e.Tables() == old(e.Tables()) && e.Data() == old(e.Data())[key := value]
  {
    var ok := e.Put(key, value);
    e.RotateAndFlush();
  }

  function PutAll(d: map<Key, Bytes>, writes: seq<(Key, Bytes)>): (r: map<Key, Bytes>)
    ensures forall i :: 0 <= i < |writes| ==> writes[i].0 in r
  {
    if writes == [] then d
    else
      var n := |writes| - 1;
      PutAll(d, writes[..n])[writes[n].0 := writes[n].1]
  }

  method PutAllBlocked(e: Engine, writes: seq<(Key, Bytes)>)
    requires e.Valid() && !e.closed && e.immutable != null
    requires forall i :: 0 <= i < |writes| ==> Fits(|writes[i].0|) && Fits(|writes[i].1|)
    modifies e, e.active
    ensures e.Valid() && e.Tables() == old(e.Tables()) && e.Data() == PutAll(old(e.Data()), writes)
  {
    var i := 0;
    assert writes[..i] == [];
    while i < |writes|
      invariant 0 <= i <= |writes| && e.Valid() && !e.closed && e.immutable != null && e.active == old(e.active)
      invariant e.Tables() == old(e.Tables()) && e.Data() == PutAll(old(e.Data()), writes[..i])
    {
      PutBlocked(e, writes[i].0, writes[i].1);
      assert writes[..i + 1][..i] == writes[..i];
      i := i + 1;
    }
    assert writes[..i] == writes;
  }

  lemma NothingStored()
    ensures |DataBlock([])| < Power(8) && DataOf([], [], []) == map[]
  {
    AloneInStack([]);
  }

  // ---------------------------------------------------------------- a lost flush after a restart

  /** No key that was flushed with another value shows in the merge of the older tables. */
  ghost predicate NoneOverruled(merged: seq<MemEntry>, flushed: seq<MemEntry>) {
    forall k :: k in View(flushed) && k in View(merged) ==> Shows(View(flushed), k) == Shows(View(merged), k)
  }

  lemma MergedShows(tables: seq<seq<MemEntry>>, merged: seq<MemEntry>, k: Key)
    requires NoTombstones(merged) && Sorted(merged) && LiveMap(View(merged)) == LiveMap(Overlay(OldestFirst(tables)))
    ensures Shows(View(merged), k) == Shows(Overlay(OldestFirst(tables)), k)
    ensures k in View(merged) <==> Shows(View(merged), k).Some?
  {
    ShowsIsLookup(View(merged), k);
    ShowsIsLookup(Overlay(OldestFirst(tables)), k);
    ViewHas(merged, k);
    if i :| 0 <= i < |merged| && merged[i].key == k {
      ViewAt(merged, i);
    }
  }

  lemma SameShows(a: map<Key, Cell>, b: map<Key, Cell>)
    ensures LiveMap(a) == LiveMap(b) <==> forall k :: Shows(a, k) == Shows(b, k)
  {
    if forall k :: Shows(a, k) == Shows(b, k) {
      forall k ensures k in LiveMap(a) <==> k in LiveMap(b) {
        ShowsIsLookup(a, k);
        ShowsIsLookup(b, k);
        assert Shows(a, k) == Shows(b, k);
      }
      forall k | k in LiveMap(a) ensures LiveMap(a)[k] == LiveMap(b)[k] {
        ShowsIsLookup(a, k);
        ShowsIsLookup(b, k);
        assert Shows(a, k) == Shows(b, k);
      }
    }
    if LiveMap(a) == LiveMap(b) {
      forall k ensures Shows(a, k) == Shows(b, k) {
        ShowsIsLookup(a, k);
        ShowsIsLookup(b, k);
      }
    }
  }

  /** The flushed table below the merge: right exactly if the merge overrules nothing of it. */
  lemma BelowTheMergeIff(tables: seq<seq<MemEntry>>, merged: seq<MemEntry>, flushed: seq<MemEntry>)
    requires NoTombstones(merged) && Sorted(merged) && LiveMap(View(merged)) == LiveMap(Overlay(OldestFirst(tables)))
    ensures DataOf([merged, flushed], [], []) == DataOf([flushed] + tables, [], []) <==> NoneOverruled(merged, flushed)
  {
    var right, now := Overlay(OldestFirst(tables)) + View(flushed), View(flushed) + View(merged);
    MergedOnTop(merged, flushed);
    FlushedOnTop(tables, flushed);
    SameShows(now, right);
    forall k ensures Shows(now, k) == Shows(right, k)
                <==> !(k in View(flushed) && k in View(merged)) || Shows(View(flushed), k) == Shows(View(merged), k)
    {
      MergedShows(tables, merged, k);
    }
  }

  /** The flushed table above the merge: always right. */
  lemma AboveTheMerge(tables: seq<seq<MemEntry>>, merged: seq<MemEntry>, flushed: seq<MemEntry>)
    requires LiveMap(View(merged)) == LiveMap(Overlay(OldestFirst(tables)))
    ensures DataOf([flushed, merged], [], []) == DataOf([flushed] + tables, [], [])
  {
    MergedOnTop(flushed, merged);
    FlushedOnTop(tables, flushed);
    LiveThrough(View(merged), Overlay(OldestFirst(tables)), View(flushed));
  }

  /** Two files, newest first. */
  lemma TwoFiles(files: Directory, ns: seq<nat>, m: nat, f: nat)
    requires files.Keys == {m, f} && m != f && Falling(ns) && forall n :: n in ns <==> n in files
    ensures Present(files, ns) && TablesOf(files, ns) == if f > m then [files[f], files[m]] else [files[m], files[f]]
  {
    var both := if f > m then [f, m] else [m, f];
    forall n ensures n in ns <==> n in both {
    }
    FallingUnique(ns, both);
    assert both[1..] == [both[1]] && [both[1]][1..] == [];
  }

  /**
   The file of a flush that a compaction lost from the list is found again at the next start. Where it comes
   is decided by the numbers: above the merge if the flush took its number after the compaction took that of
   the merge, which makes the data right; below it otherwise, and then it is right exactly if the merge
   overrules nothing that was flushed.
   */
  lemma LostFlushReturnsIff(files: Directory, ns: seq<nat>, m: nat, f: nat, tables: seq<seq<MemEntry>>)
    requires files.Keys == {m, f} && m != f && Falling(ns) && forall n :: n in ns <==> n in files
    requires NoTombstones(files[m]) && Sorted(files[m])
    requires LiveMap(View(files[m])) == LiveMap(Overlay(OldestFirst(tables)))
    ensures Present(files, ns)
    ensures DataOf(TablesOf(files, ns), [], []) == DataOf([files[f]] + tables, [], [])
       <==> f > m || NoneOverruled(files[m], files[f])
  {
    TwoFiles(files, ns, m, f);
    if f > m {
      AboveTheMerge(tables, files[m], files[f]);
    } else {
      BelowTheMergeIff(tables, files[m], files[f]);
    }
  }

  /** The same of an engine opened over such a directory. */
  method OpenAfterLostFlush(hash: Hash, files: Directory, m: nat, f: nat, ghost tables: seq<seq<MemEntry>>)
    returns (e: Engine)
    requires AllGood(files) && files.Keys == {m, f} && m != f && NoTombstones(files[m])
    requires LiveMap(View(files[m])) == LiveMap(Overlay(OldestFirst(tables)))
    ensures e.Valid()
    ensures (e.Data() == DataOf([files[f]] + tables, [], []) <==> f > m || NoneOverruled(files[m], files[f]))
  {
    e := new Engine(hash, files, {});
    LostFlushReturnsIff(files, e.sstables, m, f, tables);
  }

  lemma MergedOnTop(merged: seq<MemEntry>, flushed: seq<MemEntry>)
    ensures DataOf([merged, flushed], [], []) == LiveMap(View(flushed) + View(merged))
  {
    EmptyMemory([merged, flushed], []);
    assert [merged, flushed][1..] == [flushed];
    OneTable(flushed);
    OverlayConcat([flushed], [merged]);
    OverlayOne(merged);
    OverlayOne(flushed);
  }

  lemma FlushedOnTop(tables: seq<seq<MemEntry>>, flushed: seq<MemEntry>)
    ensures DataOf([flushed] + tables, [], []) == LiveMap(Overlay(OldestFirst(tables)) + View(flushed))
  {
    EmptyMemory([flushed] + tables, []);
    assert ([flushed] + tables)[1..] == tables;
    OverlayConcat(OldestFirst(tables), [flushed]);
    OverlayOne(flushed);
  }
}
